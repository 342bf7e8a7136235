/** The sketch's state and its frame: the text mask's drift and reset, the
    ambient clouds' drift, and the masked-particle updates, with every random
    draw, the drift increment and every redrawn mask taken as inputs. */
module Sketch {
  import opened Raster
  import opened Particles
  import opened Clouds

  /** Pool and cloud counts fixed by setup. */
  const TextPoolSize: nat := 15000
  const CloudCount: nat := 2
  const AmbientPoolSize: nat := 3000

  /** The width past which the text resets: the canvas width plus
      "OPEN".length * 1.1. */
  function TextWidthEstimate(width: nat): (e: real)
    ensures width as real < e
    ensures -e * 0.7 < 0.0
  {
    width as real + 4.0 * 1.1
  }

  /** The text's drift offsets and the text mask last drawn. */
  datatype TextState = TextState(offsetX: real, offsetY: real, mask: Mask)

  /** The draws used if the text resets this frame: random(0, height / 5) and
      the text buffer redrawn at the new offsets. */
  datatype TextRedraw = TextRedraw(y: real, mask: Mask)

  /** One frame of text drift: add the horizontal increment and the vertical
      jitter; past the estimate, jump back to -0.7 of it with a new row and a
      redrawn mask. Between resets the mask is not redrawn. */
  function StepText(t: TextState, width: nat, drift: real, jitterY: real, rd: TextRedraw): (u: TextState)
    ensures t.offsetX + drift > TextWidthEstimate(width) ==>
      u.offsetX == -TextWidthEstimate(width) * 0.7 && u.offsetY == rd.y && u.mask == rd.mask
    ensures t.offsetX + drift <= TextWidthEstimate(width) ==>
      u.offsetX == t.offsetX + drift && u.offsetY == t.offsetY + jitterY && u.mask == t.mask
    ensures u.offsetX <= TextWidthEstimate(width)
  {
    var x, y := t.offsetX + drift, t.offsetY + jitterY;
    var estimate := TextWidthEstimate(width);
    if x > estimate then TextState(-estimate * 0.7, rd.y, rd.mask)
    else TextState(x, y, t.mask)
  }

  /** Every input one frame of draw consumes. drift is the horizontal text
      increment 0.75 + sin(frameCount * 0.01); textJitterY is random(-0.05,
      0.05); textRespawnY[i] and ambientRespawnY[k][i] are what random(height)
      returns if particle i wraps in the text call or in the k-th ambient call. */
  datatype FrameDraws = FrameDraws(
    drift: real, textJitterY: real, textRedraw: TextRedraw,
    cloudRedraws: seq<CloudRedraw>,
    textRespawnY: seq<real>, ambientRespawnY: seq<seq<real>>)

  /** The masks of the clouds, in the order draw visits them. */
  function Masks(cs: seq<Cloud>): (ms: seq<Mask>)
    ensures |ms| == |cs|
  {
    seq(|cs|, i requires 0 <= i < |cs| => cs[i].mask)
  }

  /** The particle factory setup uses for each pool: makeCloudParticle for the
      ambient pool, makeParticle for the text pool. */
  function Make(d: ParticleDraw, width: nat, height: nat, ambient: bool): (p: Particle)
    requires if ambient then CloudParticleDraw(d, width, height) else TextParticleDraw(d, width, height)
    ensures p.alpha == 0.0 && Valid(p)
  {
    if ambient then MakeCloudParticle(d, width, height) else MakeParticle(d, width, height)
  }

  /** setup's push loop for one pool, particle i from draw i. */
  method NewPool(draws: seq<ParticleDraw>, width: nat, height: nat, ambient: bool) returns (pool: array<Particle>)
    requires forall i :: 0 <= i < |draws| ==>
      if ambient then CloudParticleDraw(draws[i], width, height) else TextParticleDraw(draws[i], width, height)
    ensures fresh(pool) && pool.Length == |draws|
    ensures forall i :: 0 <= i < |draws| ==> pool[i] == Make(draws[i], width, height, ambient)
  {
    pool := new Particle[|draws|];
    for i := 0 to |draws|
      invariant forall k :: 0 <= k < i ==> pool[k] == Make(draws[k], width, height, ambient)
    {
      pool[i] := Make(draws[i], width, height, ambient);
    }
  }

  /** setup's cloud loop: each cloud created, then its shape built around it. */
  method NewClouds(draws: seq<CloudDraw>, width: nat, height: nat) returns (cs: array<Cloud>)
    requires forall i :: 0 <= i < |draws| ==> CloudDrawInRange(draws[i], width, height)
    ensures fresh(cs) && cs.Length == |draws|
    ensures forall i :: 0 <= i < |draws| ==> cs[i] == MakeCloud(draws[i], width, height)
  {
    cs := new Cloud[|draws|];
    for i := 0 to |draws|
      invariant forall k :: 0 <= k < i ==> cs[k] == MakeCloud(draws[k], width, height)
    {
      var d := draws[i];
      var c := Cloud(-(width as real) * d.xFraction, d.y, d.speed, d.w, d.h, d.swayOffset, [], d.mask);
      var shape := MakeCloudShape(c.x, c.y, c.w, c.h, d.shapeDraws);
      assert c.(shape := shape) == MakeCloud(d, width, height);
      cs[i] := c.(shape := shape);
    }
  }

  /** The ambient loop of draw: the same pool updated once per cloud mask, in order. */
  method DrawAmbient(ps: array<Particle>, masks: seq<Mask>, width: nat, respawnY: seq<seq<real>>)
    requires |respawnY| == |masks|
    requires forall k :: 0 <= k < |respawnY| ==> |respawnY[k]| == ps.Length
    modifies ps
    ensures ps[..] == StepPoolOverMasks(old(ps[..]), masks, width, respawnY)
  {
    for k := 0 to |masks|
      invariant ps[..] == StepPoolOverMasks(old(ps[..]), masks[..k], width, respawnY[..k])
    {
      assert masks[..k + 1][..k] == masks[..k];
      assert respawnY[..k + 1][..k] == respawnY[..k];
      DrawMaskedParticles(ps, masks[k], width, respawnY[k]);
    }
    assert masks[..|masks|] == masks;
    assert respawnY[..|masks|] == respawnY;
  }

  class Scene {
    const width: nat
    const height: nat
    var textOffsetX: real
    var textOffsetY: real
    var textMask: Mask
    const clouds: array<Cloud>
    const cloudParticles: array<Particle>
    const ambientParticles: array<Particle>

    /** The scene invariant: every alpha within [0, 255], no cloud or text left
        past its reset point, and every mask the size of the canvas. */
    ghost predicate Valid()
      reads this, clouds, cloudParticles, ambientParticles
    {
      cloudParticles != ambientParticles
      && clouds.Length == CloudCount
      && cloudParticles.Length == TextPoolSize && ambientParticles.Length == AmbientPoolSize
      && textOffsetX <= TextWidthEstimate(width)
      && textMask.width == width && textMask.height == height
      && (forall i :: 0 <= i < clouds.Length ==> CloudValid(clouds[i], width, height))
      && AllValid(cloudParticles[..]) && AllValid(ambientParticles[..])
      && RowsWithin(cloudParticles[..], height) && RowsWithin(ambientParticles[..], height)
    }

    /** The inputs one frame needs fit the scene. */
    ghost predicate Fits(f: FrameDraws)
      reads this, clouds, cloudParticles, ambientParticles
    {
      f.textRedraw.mask.width == width && f.textRedraw.mask.height == height
      && Between(f.textRedraw.y, 0.0, height as real / 5.0)
      && Between(f.textJitterY, -0.05, 0.05)
      && |f.cloudRedraws| == clouds.Length
      && (forall i :: 0 <= i < |f.cloudRedraws| ==>
            RedrawInRange(f.cloudRedraws[i], clouds[i].w, width, height))
      && |f.textRespawnY| == cloudParticles.Length && DrawsWithin(f.textRespawnY, height)
      && |f.ambientRespawnY| == clouds.Length
      && (forall k :: 0 <= k < |f.ambientRespawnY| ==>
            |f.ambientRespawnY[k]| == ambientParticles.Length && DrawsWithin(f.ambientRespawnY[k], height))
    }

    /** setup without its asset loading: the text pool, the two clouds and the
        ambient pool, every particle created fully transparent. */
    constructor (width: nat, height: nat, textMask: Mask,
                 particleDraws: seq<ParticleDraw>, cloudDraws: seq<CloudDraw>,
                 ambientDraws: seq<ParticleDraw>)
      requires textMask.width == width && textMask.height == height
      requires |particleDraws| == TextPoolSize && |cloudDraws| == CloudCount
      requires |ambientDraws| == AmbientPoolSize
      requires forall i :: 0 <= i < |particleDraws| ==> TextParticleDraw(particleDraws[i], width, height)
      requires forall i :: 0 <= i < |cloudDraws| ==> CloudDrawInRange(cloudDraws[i], width, height)
      requires forall i :: 0 <= i < |ambientDraws| ==> CloudParticleDraw(ambientDraws[i], width, height)
      ensures Valid()
      ensures this.width == width && this.height == height
      ensures textOffsetX == 0.0 && textOffsetY == 0.0 && this.textMask == textMask
      ensures fresh(clouds) && fresh(cloudParticles) && fresh(ambientParticles)
      ensures cloudParticles.Length == TextPoolSize && clouds.Length == CloudCount
      ensures ambientParticles.Length == AmbientPoolSize
      ensures forall i :: 0 <= i < TextPoolSize ==>
        cloudParticles[i] == MakeParticle(particleDraws[i], width, height)
      ensures forall i :: 0 <= i < CloudCount ==> clouds[i] == MakeCloud(cloudDraws[i], width, height)
      ensures forall i :: 0 <= i < AmbientPoolSize ==>
        ambientParticles[i] == MakeCloudParticle(ambientDraws[i], width, height)
    {
      var pool := NewPool(particleDraws, width, height, false);
      var cs := NewClouds(cloudDraws, width, height);
      var ambient := NewPool(ambientDraws, width, height, true);
      assert AllValid(pool[..]) && AllValid(ambient[..]);
      assert RowsWithin(pool[..], height) && RowsWithin(ambient[..], height);
      this.width, this.height := width, height;
      textOffsetX, textOffsetY := 0.0, 0.0;
      this.textMask := textMask;
      clouds, cloudParticles, ambientParticles := cs, pool, ambient;
    }

    /** The text drift of draw, in place on the offsets and the text buffer. */
    method DriftText(drift: real, jitterY: real, rd: TextRedraw)
      modifies this`textOffsetX, this`textOffsetY, this`textMask
      ensures TextState(textOffsetX, textOffsetY, textMask)
        == StepText(TextState(old(textOffsetX), old(textOffsetY), old(textMask)), width, drift, jitterY, rd)
    {
      textOffsetX := textOffsetX + drift;
      textOffsetY := textOffsetY + jitterY;
      var estimate := TextWidthEstimate(width);
      if textOffsetX > estimate {
        textOffsetX := -estimate * 0.7;
        textOffsetY := rd.y;
        textMask := rd.mask;
      }
    }

    /** draw without its rendering: drift the text, move the clouds, update
        the text pool against the text mask, then update the ambient pool
        once against each cloud's mask. */
    method Draw(f: FrameDraws)
      requires Valid() && Fits(f)
      modifies this, clouds, cloudParticles, ambientParticles
      ensures Valid()
      ensures TextState(textOffsetX, textOffsetY, textMask)
        == StepText(TextState(old(textOffsetX), old(textOffsetY), old(textMask)),
                    width, f.drift, f.textJitterY, f.textRedraw)
      ensures clouds[..] == StepClouds(old(clouds[..]), width, f.cloudRedraws)
      ensures cloudParticles[..] == StepPool(old(cloudParticles[..]), textMask, width, f.textRespawnY)
      ensures ambientParticles[..]
        == StepPoolOverMasks(old(ambientParticles[..]), Masks(clouds[..]), width, f.ambientRespawnY)
      ensures forall i :: 0 <= i < ambientParticles.Length ==>
        ambientParticles[i] == StepParticle(
          StepParticle(old(ambientParticles[i]), clouds[0].mask, width, f.ambientRespawnY[0][i]),
          clouds[1].mask, width, f.ambientRespawnY[1][i])
    {
      DriftText(f.drift, f.textJitterY, f.textRedraw);

      MoveClouds(clouds, width, f.cloudRedraws);
      forall i | 0 <= i < clouds.Length
        ensures CloudValid(clouds[i], width, height)
      {
        StepCloudValid(old(clouds[i]), width, height, f.cloudRedraws[i]);
      }

      ghost var textBefore := cloudParticles[..];
      DrawMaskedParticles(cloudParticles, textMask, width, f.textRespawnY);

      var masks := Masks(clouds[..]);
      ghost var ambientBefore := ambientParticles[..];
      DrawAmbient(ambientParticles, masks, width, f.ambientRespawnY);
      StepPoolOverMasksValid(ambientBefore, masks, width, f.ambientRespawnY);
      StepPoolOverMasksRows(ambientBefore, masks, width, height, f.ambientRespawnY);

      assert masks == [clouds[0].mask, clouds[1].mask];
      assert f.ambientRespawnY == [f.ambientRespawnY[0], f.ambientRespawnY[1]];
      forall i | 0 <= i < ambientParticles.Length
        ensures ambientParticles[i] == StepParticle(
          StepParticle(ambientBefore[i], clouds[0].mask, width, f.ambientRespawnY[0][i]),
          clouds[1].mask, width, f.ambientRespawnY[1][i])
      {
        StepPoolOverTwoMasks(ambientBefore, clouds[0].mask, clouds[1].mask, width,
                             f.ambientRespawnY[0], f.ambientRespawnY[1], i);
      }
    }
  }
}
