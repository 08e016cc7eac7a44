/**
 * The short-lived visual entities of script.js and the per-frame rule each
 * `update()` applies to its `life`. Positions, velocities and particle sizes
 * are floating-point drawing state and are not part of this model; `life`,
 * `decay` and `scale` are exact reals.
 */
module Entities {
  import opened Config

  /** A marker left behind a moving actor (`TrailParticle`). */
  datatype TrailParticle = TrailParticle(life: real, color: string)

  /** A burst particle (`Particle`), fading by its own random `decay`. */
  datatype Particle = Particle(life: real, decay: real, color: string)

  /** `FloatingText`: a rising, fading message, or a persistent finale message. */
  datatype FloatingText = FloatingText(text: string, life: real, scale: real, isFloating: bool)

  /** `Star`: its position, twinkle and depth are floating-point drawing state. */
  datatype Star = Star

  /** A trail particle is born with full life in its actor's colour. */
  function NewTrail(color: string): (t: TrailParticle)
    ensures t.life == 1.0 && t.color == color
  {
    TrailParticle(1.0, color)
  }

  /** `Math.random() * 0.02 + 0.01` for a draw `u` of `Math.random()`. */
  function ParticleDecay(u: real): (d: real)
    ensures UnitDraw(u) ==> 0.01 <= d < 0.03
  {
    u * 0.02 + 0.01
  }

  function NewParticle(color: string, u: real): (p: Particle)
    ensures p.life == 1.0 && p.color == color
    ensures UnitDraw(u) ==> 0.01 <= p.decay < 0.03
  {
    Particle(1.0, ParticleDecay(u), color)
  }

  /** A transient text as `spawnText` creates it. */
  function NewText(text: string): (t: FloatingText)
    ensures t.text == text && !t.isFloating && t.life == 1.0 && t.scale == 0.0
  {
    FloatingText(text, 1.0, 0.0, false)
  }

  /** A finale message: floating, with life 1000. */
  function FinaleText(text: string): (t: FloatingText)
    ensures t.text == text && t.isFloating && t.life == FinaleTextLife && t.scale == 0.0
  {
    FloatingText(text, FinaleTextLife, 0.0, true)
  }

  /** `TrailParticle.update`. */
  function UpdateTrail(t: TrailParticle): (r: TrailParticle)
    ensures r.color == t.color && r.life < t.life
  {
    t.(life := t.life - TrailDecay)
  }

  /** `Particle.update`. */
  function UpdateParticle(p: Particle): (r: Particle)
    ensures r.color == p.color && r.decay == p.decay
    ensures p.decay > 0.0 ==> r.life < p.life
  {
    p.(life := p.life - p.decay)
  }

  /** The scale a floating message grows to: smaller for long messages. */
  function TargetScale(text: string): real
  {
    if |text| > 50 then 0.7 else 1.0
  }

  /** `FloatingText.update`: only the rising mode loses life. */
  function UpdateText(t: FloatingText): (r: FloatingText)
    ensures r.text == t.text && r.isFloating == t.isFloating
    ensures r.life == if t.isFloating then t.life else t.life - TextDecay
    ensures t.scale <= r.scale <= t.scale + ScaleStep
  {
    if t.isFloating then
      t.(scale := if t.scale < TargetScale(t.text) then t.scale + ScaleStep else t.scale)
    else
      t.(life := t.life - TextDecay, scale := if t.scale < 1.0 then t.scale + ScaleStep else t.scale)
  }

  function TrailLife(t: TrailParticle): real { t.life }
  function ParticleLife(p: Particle): real { p.life }
  function TextLife(t: FloatingText): real { t.life }

  /** `k` consecutive updates of one entity. */
  function TrailAfter(t: TrailParticle, k: nat): TrailParticle
  {
    if k == 0 then t else UpdateTrail(TrailAfter(t, k - 1))
  }

  function ParticleAfter(p: Particle, k: nat): Particle
  {
    if k == 0 then p else UpdateParticle(ParticleAfter(p, k - 1))
  }

  function TextAfter(t: FloatingText, k: nat): FloatingText
  {
    if k == 0 then t else UpdateText(TextAfter(t, k - 1))
  }

  lemma {:induction false} TrailLifeAfter(t: TrailParticle, k: nat)
    ensures TrailAfter(t, k).life == t.life - (k as real) * TrailDecay
    ensures TrailAfter(t, k).color == t.color
  {
    if k > 0 {
      TrailLifeAfter(t, k - 1);
    }
  }

  /** A new trail particle is alive for exactly its first 24 updates. */
  lemma TrailLifetime(color: string, k: nat)
    ensures TrailAfter(NewTrail(color), k).life > 0.0 <==> k < 25
  {
    TrailLifeAfter(NewTrail(color), k);
  }

  lemma {:induction false} TextLifeAfter(t: FloatingText, k: nat)
    ensures TextAfter(t, k).text == t.text && TextAfter(t, k).isFloating == t.isFloating
    ensures TextAfter(t, k).life == if t.isFloating then t.life else t.life - (k as real) * TextDecay
  {
    if k > 0 {
      TextLifeAfter(t, k - 1);
    }
  }

  /** A collision message rises for exactly its first 249 updates. */
  lemma TransientTextLifetime(text: string, k: nat)
    ensures TextAfter(NewText(text), k).life > 0.0 <==> k < 250
  {
    TextLifeAfter(NewText(text), k);
  }

  /** A finale message keeps its life 1000 through any number of updates. */
  lemma FinaleTextPersists(text: string, k: nat)
    ensures TextAfter(FinaleText(text), k).life == FinaleTextLife
  {
    TextLifeAfter(FinaleText(text), k);
  }

  /** `u` is a value `Math.random()` can return. */
  predicate UnitDraw(u: real)
  {
    0.0 <= u < 1.0
  }

  lemma {:induction false} ParticleLifeBounds(p: Particle, k: nat)
    requires 0.01 <= p.decay < 0.03
    ensures ParticleAfter(p, k).decay == p.decay
    ensures ParticleAfter(p, k).life <= p.life - (k as real) * 0.01
    ensures k > 0 ==> ParticleAfter(p, k).life > p.life - (k as real) * 0.03
  {
    if k > 0 {
      ParticleLifeBounds(p, k - 1);
      assert (k as real) == ((k - 1) as real) + 1.0;
    }
  }

  /**
   * A burst particle fades in 34 to 100 updates: alive after its first 33,
   * gone by its 100th, whatever `Math.random()` drew for its decay.
   */
  lemma ParticleLifetime(color: string, u: real)
    requires UnitDraw(u)
    ensures ParticleAfter(NewParticle(color, u), 33).life > 0.0
    ensures ParticleAfter(NewParticle(color, u), 100).life <= 0.0
  {
    ParticleLifeBounds(NewParticle(color, u), 33);
    ParticleLifeBounds(NewParticle(color, u), 100);
  }
}
