/**
 * The objects of script.js whose fields change in place: the two actors and
 * the engine. Physics, drawing, DOM and timers are not modelled; what each
 * frame needs from them is an input: whether an actor moves fast enough to
 * leave a trail, whether the actors are within the merge distance, the
 * current time, the `Math.random()` draws that set burst particles' decay,
 * whether the audio context can be built or is suspended.
 */
module Game {
  import opened Config
  import opened Entities
  import opened Pruning
  import StarField
  import Progression
  import opened Audio

  /** Each value is one that `Math.random()` can return. */
  predicate UnitDraws(draws: seq<real>)
  {
    forall i :: 0 <= i < |draws| ==> UnitDraw(draws[i])
  }

  /** The particles of one explosion, one per draw. */
  function Explosion(color: string, draws: seq<real>): seq<Particle>
  {
    seq(|draws|, i requires 0 <= i < |draws| => NewParticle(color, draws[i]))
  }

  /** One floating message per configured message, in order. */
  function FinaleTexts(): seq<FloatingText>
  {
    seq(|Messages|, i requires 0 <= i < |Messages| => FinaleText(Messages[i]))
  }

  /** The trail particle an update appends, if the actor is fast enough. */
  function NewTrails(moving: bool, color: string): seq<TrailParticle>
  {
    if moving then [NewTrail(color)] else []
  }

  /** Particles a collision frame adds: its burst, and the finale's burst. */
  function SpawnedParticles(e: Progression.Effect, burst: seq<real>, finaleBurst: seq<real>): seq<Particle>
  {
    match e
    case NoEffect => []
    case Reveal(_) => Explosion(PartnerColor, burst)
    case Finale => Explosion(PartnerColor, burst) + Explosion(FinaleColor, finaleBurst)
  }

  /** Texts a collision frame adds: the revealed message, or all of them. */
  function SpawnedTexts(e: Progression.Effect): seq<FloatingText>
  {
    match e
    case NoEffect => []
    case Reveal(t) => [NewText(t)]
    case Finale => FinaleTexts()
  }

  /** Texts that float with positive life are never pruned, however long. */
  lemma FloatingTextsNeverPruned(s: seq<FloatingText>)
    requires forall i :: 0 <= i < |s| ==> s[i].isFloating && s[i].life > 0.0
    ensures Survivors(s, UpdateText, TextLife) == Updated(s, UpdateText)
    ensures forall i :: 0 <= i < |s| ==>
      Updated(s, UpdateText)[i].isFloating && Updated(s, UpdateText)[i].life == s[i].life
  {
    forall i | 0 <= i < |s|
      ensures Updated(s, UpdateText)[i].isFloating && Updated(s, UpdateText)[i].life == s[i].life
    {
      assert Updated(s, UpdateText)[i] == UpdateText(s[i]);
    }
    AliveAllLiving(Updated(s, UpdateText), TextLife);
  }

  /**
   * The frame of the finale keeps every message: the texts afterwards are the
   * survivors of the earlier texts followed by all |Messages| finale messages,
   * each floating with life 1000.
   */
  lemma FinaleFrameKeepsAllMessages(oldTexts: seq<FloatingText>)
    ensures var r := Survivors(oldTexts + FinaleTexts(), UpdateText, TextLife);
      && r == Survivors(oldTexts, UpdateText, TextLife) + Updated(FinaleTexts(), UpdateText)
      && |r| == |Survivors(oldTexts, UpdateText, TextLife)| + |Messages|
    ensures forall i :: 0 <= i < |Messages| ==>
      var t := Updated(FinaleTexts(), UpdateText)[i];
      t.text == Messages[i] && t.isFloating && t.life == FinaleTextLife
  {
    SurvivorsAppend(oldTexts, FinaleTexts(), UpdateText, TextLife);
    FloatingTextsNeverPruned(FinaleTexts());
    forall i | 0 <= i < |Messages|
      ensures Updated(FinaleTexts(), UpdateText)[i].text == Messages[i]
    {
      assert Updated(FinaleTexts(), UpdateText)[i] == UpdateText(FinaleText(Messages[i]));
    }
  }

  /** A revealed message survives the frame it is revealed in, at the end. */
  lemma RevealedTextSurvivesItsFrame(oldTexts: seq<FloatingText>, text: string)
    ensures Survivors(oldTexts + [NewText(text)], UpdateText, TextLife)
      == Survivors(oldTexts, UpdateText, TextLife) + [UpdateText(NewText(text))]
  {
    SurvivorsAppend(oldTexts, [NewText(text)], UpdateText, TextLife);
    AliveAllLiving(Updated([NewText(text)], UpdateText), TextLife);
  }

  /**
   * An explosion adds one particle per draw, each with life 1, the burst's
   * colour and a decay in [0.01, 0.03); all of them survive the frame they are
   * spawned in.
   */
  lemma ExplosionSurvivesItsFrame(color: string, draws: seq<real>)
    requires UnitDraws(draws)
    ensures forall i :: 0 <= i < |draws| ==>
      var p := Explosion(color, draws)[i];
      p.life == 1.0 && p.color == color && 0.01 <= p.decay < 0.03
    ensures Survivors(Explosion(color, draws), UpdateParticle, ParticleLife)
      == Updated(Explosion(color, draws), UpdateParticle)
  {
    AliveAllLiving(Updated(Explosion(color, draws), UpdateParticle), ParticleLife);
  }

  /** `Player`: the user-steered actor. */
  class Player {
    var size: nat
    var active: bool
    var trails: seq<TrailParticle>

    constructor ()
      ensures size == PlayerSize && !active && trails == []
    {
      size, active, trails := PlayerSize, false, [];
    }

    /**
     * The trail part of `Player.update`: append a trail particle when the
     * speed exceeds 0.5 (`moving`), then update and prune the trail.
     */
    method Update(moving: bool)
      modifies this
      ensures trails == Survivors(old(trails) + NewTrails(moving, PlayerColor), UpdateTrail, TrailLife)
      ensures size == old(size) && active == old(active)
    {
      if moving {
        trails := trails + [NewTrail(PlayerColor)];
      } else {
        assert trails + NewTrails(moving, PlayerColor) == trails;
      }
      trails := UpdateAndPrune(trails, UpdateTrail, TrailLife);
    }
  }

  /** `Partner`: the actor that wanders, then pursues the player. */
  class Partner {
    var size: nat
    var active: bool
    var trails: seq<TrailParticle>
    const maxSpeed: nat

    constructor ()
      ensures size == PartnerSize && !active && trails == [] && maxSpeed == PartnerMaxSpeed
    {
      size, active, trails, maxSpeed := PartnerSize, false, [], PartnerMaxSpeed;
    }

    /** The trail part of `Partner.update`, as for the player. */
    method Update(moving: bool)
      modifies this
      ensures trails == Survivors(old(trails) + NewTrails(moving, PartnerColor), UpdateTrail, TrailLife)
      ensures size == old(size) && active == old(active)
    {
      if moving {
        trails := trails + [NewTrail(PartnerColor)];
      } else {
        assert trails + NewTrails(moving, PartnerColor) == trails;
      }
      trails := UpdateAndPrune(trails, UpdateTrail, TrailLife);
    }
  }

  /** `Engine`: owns every entity and runs the progression. */
  class Engine {
    const width: nat
    const height: nat
    var stars: seq<Star>
    const player: Player
    const partner: Partner
    const audio: AudioController
    var particles: seq<Particle>
    var texts: seq<FloatingText>
    var gameStep: nat
    var messageIndex: nat
    var lastCollisionTime: int

    function Progress(): Progression.Progress
      reads this
    {
      Progression.Progress(gameStep, messageIndex, lastCollisionTime)
    }

    /** The constructor together with `init`: stars from the area, idle actors. */
    constructor (width: nat, height: nat)
      ensures this.width == width && this.height == height
      ensures |stars| == StarField.StarCount(width, height)
      ensures Progress() == Progression.Initial
      ensures particles == [] && texts == []
      ensures fresh(player) && fresh(partner) && fresh(audio)
      ensures player.size == PlayerSize && !player.active && player.trails == []
      ensures partner.size == PartnerSize && !partner.active && partner.trails == []
      ensures audio.Flags() == Fresh
    {
      var count := StarField.StarCount(width, height);
      var created: seq<Star> := [];
      for i := 0 to count
        invariant |created| == i
      {
        created := created + [Star];
      }
      this.width, this.height := width, height;
      stars := created;
      audio := new AudioController();
      player := new Player();
      partner := new Partner();
      particles, texts := [], [];
      gameStep, messageIndex, lastCollisionTime := 0, 0, 0;
    }

    /** `startGame`: from idle only; activates both actors and the audio. */
    method StartGame(available: bool)
      modifies this, player, partner, audio
      ensures Progress() == Progression.Start(old(Progress()))
      ensures old(gameStep) == 0 ==> player.active && partner.active
      ensures old(gameStep) == 0 ==> audio.Flags() == AfterInit(old(audio.Flags()), available)
      ensures old(gameStep) > 0 ==> player.active == old(player.active) && partner.active == old(partner.active)
      ensures old(gameStep) > 0 ==> audio.Flags() == old(audio.Flags())
      ensures player.size == old(player.size) && player.trails == old(player.trails)
      ensures partner.size == old(partner.size) && partner.trails == old(partner.trails)
      ensures particles == old(particles) && texts == old(texts) && stars == old(stars)
    {
      if gameStep > 0 {
        return;
      }
      gameStep := 1;
      player.active := true;
      partner.active := true;
      audio.Init(available);
    }

    /** The page's click handler. */
    method OnClick(available: bool)
      modifies this, player, partner, audio
      ensures Progress() == Progression.Apply(old(Progress()), Progression.Click).next
      ensures old(gameStep) == 0 ==> player.active && partner.active
      ensures old(gameStep) == 0 ==> audio.Flags() == AfterInit(old(audio.Flags()), available)
      ensures old(gameStep) > 0 ==> audio.Flags() == old(audio.Flags())
      ensures old(gameStep) > 0 ==> player.active == old(player.active) && partner.active == old(partner.active)
      ensures player.size == old(player.size) && player.trails == old(player.trails)
      ensures partner.size == old(partner.size) && partner.trails == old(partner.trails)
      ensures particles == old(particles) && texts == old(texts) && stars == old(stars)
    {
      if gameStep == 0 {
        StartGame(available);
      }
    }

    /** The music button: toggle, then show it as playing when unmuted. */
    method OnMusicButton(available: bool) returns (playing: bool)
      modifies audio
      ensures audio.Flags() == AfterToggleMute(old(audio.Flags()), available)
      ensures playing == old(audio.isMuted)
    {
      audio.ToggleMute(available);
      playing := !audio.isMuted;
    }

    /** `spawnText`: a rising message. */
    method SpawnText(text: string)
      modifies this
      ensures texts == old(texts) + [NewText(text)]
      ensures particles == old(particles) && Progress() == old(Progress()) && stars == old(stars)
    {
      texts := texts + [NewText(text)];
    }

    /** `spawnExplosion`: 30 particles of one colour. */
    method SpawnExplosion(color: string, draws: seq<real>)
      requires |draws| == ExplosionSize
      modifies this
      ensures particles == old(particles) + Explosion(color, draws)
      ensures texts == old(texts) && Progress() == old(Progress()) && stars == old(stars)
    {
      for i := 0 to ExplosionSize
        invariant particles == old(particles) + Explosion(color, draws[..i])
        invariant texts == old(texts) && Progress() == old(Progress()) && stars == old(stars)
      {
        assert Explosion(color, draws[..i + 1]) == Explosion(color, draws[..i]) + [NewParticle(color, draws[i])];
        particles := particles + [NewParticle(color, draws[i])];
      }
      assert draws[..ExplosionSize] == draws;
    }

    /**
     * `triggerFinale`: step 2, a white burst, the chord, both actors hidden,
     * and every message as a persistent floating text. Returns whether the
     * chord is scheduled.
     */
    method TriggerFinale(draws: seq<real>) returns (chord: bool)
      requires |draws| == ExplosionSize
      modifies this, player, partner
      ensures gameStep == 2
      ensures messageIndex == old(messageIndex) && lastCollisionTime == old(lastCollisionTime)
      ensures particles == old(particles) + Explosion(FinaleColor, draws)
      ensures texts == old(texts) + FinaleTexts()
      ensures player.size == 0 && partner.size == 0
      ensures player.active == old(player.active) && player.trails == old(player.trails)
      ensures partner.active == old(partner.active) && partner.trails == old(partner.trails)
      ensures chord == FinalePlays(audio.Flags())
      ensures stars == old(stars)
    {
      gameStep := 2;
      SpawnExplosion(FinaleColor, draws);
      chord := audio.PlayFinale();
      player.size := 0;
      partner.size := 0;
      for i := 0 to |Messages|
        modifies this
        invariant texts == old(texts) + FinaleTexts()[..i]
        invariant particles == old(particles) + Explosion(FinaleColor, draws)
        invariant gameStep == 2 && messageIndex == old(messageIndex) && lastCollisionTime == old(lastCollisionTime)
        invariant stars == old(stars)
      {
        assert FinaleTexts()[..i + 1] == FinaleTexts()[..i] + [FinaleText(Messages[i])];
        texts := texts + [FinaleText(Messages[i])];
      }
      assert FinaleTexts()[..|Messages|] == FinaleTexts();
    }

    /**
     * One frame of `update`, without physics and drawing: the actors' trails,
     * the collision logic, then the particles and the texts. Returns whether a
     * chime and whether the finale chord are scheduled.
     */
    method Update(near: bool, now: int, playerMoving: bool, partnerMoving: bool,
                  burst: seq<real>, finaleBurst: seq<real>, suspended: bool)
      returns (chime: bool, chord: bool)
      requires |burst| == ExplosionSize && |finaleBurst| == ExplosionSize
      modifies this, player, partner
      ensures var step := Progression.Collide(old(Progress()), near, now);
        && Progress() == step.next
        && particles == Survivors(old(particles) + SpawnedParticles(step.effect, burst, finaleBurst),
                                  UpdateParticle, ParticleLife)
        && texts == Survivors(old(texts) + SpawnedTexts(step.effect), UpdateText, TextLife)
        && player.size == (if step.effect.Finale? then 0 else old(player.size))
        && partner.size == (if step.effect.Finale? then 0 else old(partner.size))
        && chime == (!step.effect.NoEffect? && ChimePlays(audio.Flags(), suspended))
        && chord == (step.effect.Finale? && FinalePlays(audio.Flags()))
      ensures player.trails == Survivors(old(player.trails) + NewTrails(playerMoving, PlayerColor), UpdateTrail, TrailLife)
      ensures partner.trails == Survivors(old(partner.trails) + NewTrails(partnerMoving, PartnerColor), UpdateTrail, TrailLife)
      ensures player.active == old(player.active) && partner.active == old(partner.active)
      ensures stars == old(stars)
    {
      ghost var step := Progression.Collide(Progress(), near, now);
      player.Update(playerMoving);
      partner.Update(partnerMoving);
      chime, chord := false, false;
      if gameStep == 1 && near && now - lastCollisionTime > CollisionCooldown {
        lastCollisionTime := now;
        SpawnExplosion(PartnerColor, burst);
        chime := audio.PlayChime(suspended);
        if messageIndex < |Messages| {
          SpawnText(Messages[messageIndex]);
          messageIndex := messageIndex + 1;
        } else {
          chord := TriggerFinale(finaleBurst);
          assert particles == old(particles) + SpawnedParticles(step.effect, burst, finaleBurst);
        }
      } else {
        assert old(particles) + SpawnedParticles(step.effect, burst, finaleBurst) == old(particles);
        assert old(texts) + SpawnedTexts(step.effect) == old(texts);
      }
      particles := UpdateAndPrune(particles, UpdateParticle, ParticleLife);
      texts := UpdateAndPrune(texts, UpdateText, TextLife);
    }
  }
}
