/**
 * The process-wide constants of the animation (the `CONFIG` object of
 * script.js together with the literal numbers the engine uses).
 */
module Config {

  /** The messages revealed one collision at a time, in this order. */
  const Messages: seq<string> := [
    "I was used to the silence of my own thoughts",
    "until you brought a new rhythm into my life",
    "You are the missing piece I didn\U{2019}t even know I was looking for.",
    "Without a word, your presence makes everything feel right.",
    "Thank you for being the reason behind my peace and my constant smile.",
    "Happy Valentine\U{2019}s Day, My Love Sunny."
  ]

  /** Minimum time, in milliseconds, between two accepted collisions. */
  const CollisionCooldown: int := 1500

  /** Number of particles one explosion spawns. */
  const ExplosionSize: nat := 30

  /** Life given to the floating messages of the finale. */
  const FinaleTextLife: real := 1000.0

  /** Life lost by a trail particle on every update (its `decay` field). */
  const TrailDecay: real := 0.04

  /** Life lost by a rising (non-floating) text on every update. */
  const TextDecay: real := 0.004

  /** Growth of a text's scale on every update while below its target. */
  const ScaleStep: real := 0.05

  /** Colours of the two actors and of the finale burst. */
  const PlayerColor: string := "#4fc3f7"
  const PartnerColor: string := "#ff4081"
  const FinaleColor: string := "#fff"

  /** Initial sizes of the two actors and the partner's speed cap. */
  const PlayerSize: nat := 6
  const PartnerSize: nat := 8
  const PartnerMaxSpeed: nat := 5
}
