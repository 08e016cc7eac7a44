/**
 * The progression of the engine in script.js: `gameStep` (0 idle, 1 chasing,
 * 2 finale), `messageIndex` (how many messages have been revealed) and
 * `lastCollisionTime` (milliseconds, the time of the last accepted collision).
 * Whether the two actors are closer than the merge distance and the value of
 * `Date.now()` are inputs of each frame.
 */
module Progression {
  import opened Config

  datatype Progress = Progress(gameStep: nat, messageIndex: nat, lastCollisionTime: int)

  /** The state the engine's constructor leaves. */
  const Initial: Progress := Progress(0, 0, 0)

  /** An invariant every run from `Initial` keeps (wider than the set of reachable states). */
  predicate Valid(p: Progress)
  {
    && p.gameStep <= 2
    && p.messageIndex <= |Messages|
    && (p.gameStep == 0 ==> p.messageIndex == 0)
    && (p.gameStep == 2 ==> p.messageIndex == |Messages|)
  }

  /** `startGame`: leaves idle for chasing; does nothing once started. */
  function Start(p: Progress): (q: Progress)
    ensures p.gameStep == 0 ==> q.gameStep == 1
    ensures p.gameStep > 0 ==> q == p
    ensures q.messageIndex == p.messageIndex && q.lastCollisionTime == p.lastCollisionTime
  {
    if p.gameStep > 0 then p else p.(gameStep := 1)
  }

  /** What an accepted collision does besides the explosion and the chime. */
  datatype Effect = NoEffect | Reveal(text: string) | Finale

  datatype Step = Step(next: Progress, effect: Effect)

  /** A collision is accepted while chasing, when near, after the cooldown. */
  predicate Accepts(p: Progress, near: bool, now: int)
    ensures Accepts(p, near, now) ==> p.gameStep == 1 && near
    ensures Accepts(p, near, now) ==> now >= p.lastCollisionTime + CollisionCooldown + 1
  {
    p.gameStep == 1 && near && now - p.lastCollisionTime > CollisionCooldown
  }

  /** The logic block of `Engine.update`. */
  function Collide(p: Progress, near: bool, now: int): (s: Step)
    ensures s.effect.NoEffect? <==> !Accepts(p, near, now)
    ensures s.effect.NoEffect? ==> s.next == p
    ensures !s.effect.NoEffect? ==> s.next.lastCollisionTime == now
    ensures s.effect.Reveal? <==> Accepts(p, near, now) && p.messageIndex < |Messages|
    ensures s.effect.Reveal? ==> s.next.messageIndex == p.messageIndex + 1 && s.next.gameStep == 1
    ensures s.effect.Reveal? ==> s.effect.text == Messages[p.messageIndex]
    ensures s.effect.Finale? ==> s.next.gameStep == 2 && s.next.messageIndex == p.messageIndex
  {
    if !Accepts(p, near, now) then
      Step(p, NoEffect)
    else if p.messageIndex < |Messages| then
      Step(p.(lastCollisionTime := now, messageIndex := p.messageIndex + 1), Reveal(Messages[p.messageIndex]))
    else
      Step(p.(lastCollisionTime := now, gameStep := 2), Finale)
  }

  /** What can happen between two observations: a click, or a frame. */
  datatype Event = Click | Frame(near: bool, now: int)

  /** A click starts the game only when idle (the click handler's own guard). */
  function Apply(p: Progress, e: Event): Step
  {
    match e
    case Click => Step(if p.gameStep == 0 then Start(p) else p, NoEffect)
    case Frame(near, now) => Collide(p, near, now)
  }

  function Run(p: Progress, evs: seq<Event>): Progress
    decreases |evs|
  {
    if evs == [] then p else Run(Apply(p, evs[0]).next, evs[1..])
  }

  /** An accepted collision: when, and what it revealed or triggered. */
  datatype Acceptance = Acceptance(at: int, effect: Effect)

  /** The accepted collisions of a run, in order. */
  function Accepted(p: Progress, evs: seq<Event>): seq<Acceptance>
    decreases |evs|
  {
    if evs == [] then []
    else
      var s := Apply(p, evs[0]);
      (if s.effect.NoEffect? then [] else [Acceptance(s.next.lastCollisionTime, s.effect)])
      + Accepted(s.next, evs[1..])
  }

  /** `startGame` acts exactly once, from idle, and is then a no-op. */
  lemma StartOnlyFromIdle(p: Progress)
    ensures Start(p) != p <==> p.gameStep == 0
    ensures Start(p).gameStep >= 1 && Start(Start(p)) == Start(p)
    ensures Valid(p) ==> Valid(Start(p))
  {
  }

  /** Every run keeps `Valid`: step in {0, 1, 2}, index within the list, step 0 before any reveal, step 2 after all. */
  lemma {:induction false} RunStaysValid(p: Progress, evs: seq<Event>)
    requires Valid(p)
    ensures Valid(Run(p, evs))
    decreases |evs|
  {
    if evs != [] {
      RunStaysValid(Apply(p, evs[0]).next, evs[1..]);
    }
  }

  /** Neither the step nor the number of revealed messages ever decreases. */
  lemma {:induction false} RunNeverGoesBack(p: Progress, evs: seq<Event>)
    ensures Run(p, evs).gameStep >= p.gameStep
    ensures Run(p, evs).messageIndex >= p.messageIndex
    decreases |evs|
  {
    if evs != [] {
      RunNeverGoesBack(Apply(p, evs[0]).next, evs[1..]);
    }
  }

  /** Once in the finale, nothing is accepted and nothing changes. */
  lemma {:induction false} FinaleIsTerminal(p: Progress, evs: seq<Event>)
    requires p.gameStep == 2
    ensures Accepted(p, evs) == [] && Run(p, evs) == p
    decreases |evs|
  {
    if evs != [] {
      FinaleIsTerminal(Apply(p, evs[0]).next, evs[1..]);
    }
  }

  /**
   * The cooldown, measured from the state before a run: the k-th accepted
   * collision (from 0) comes more than (k + 1) * 1500 ms after the last one
   * the state records.
   */
  lemma {:induction false} CooldownSinceStart(p: Progress, evs: seq<Event>)
    ensures forall k :: 0 <= k < |Accepted(p, evs)| ==>
      Accepted(p, evs)[k].at - p.lastCollisionTime > CollisionCooldown * (k + 1)
    decreases |evs|
  {
    if evs != [] {
      var s := Apply(p, evs[0]);
      var rest := Accepted(s.next, evs[1..]);
      var a := Accepted(p, evs);
      CooldownSinceStart(s.next, evs[1..]);
      if s.effect.NoEffect? {
        assert a == rest && s.next.lastCollisionTime == p.lastCollisionTime;
      } else {
        var t := s.next.lastCollisionTime;
        assert t - p.lastCollisionTime > CollisionCooldown;
        assert a == [Acceptance(t, s.effect)] + rest;
        forall k | 1 <= k < |a|
          ensures a[k].at - p.lastCollisionTime > CollisionCooldown * (k + 1)
        {
          assert a[k] == rest[k - 1];
          assert rest[k - 1].at - t > CollisionCooldown * k;
        }
      }
    }
  }

  /** After a run, the state records the time of the last accepted collision. */
  lemma {:induction false} RunRecordsLastAcceptance(p: Progress, evs: seq<Event>)
    ensures var a := Accepted(p, evs);
      Run(p, evs).lastCollisionTime == if a == [] then p.lastCollisionTime else a[|a| - 1].at
    decreases |evs|
  {
    if evs != [] {
      var s := Apply(p, evs[0]);
      RunRecordsLastAcceptance(s.next, evs[1..]);
    }
  }

  /** Any two accepted collisions i < j are more than (j - i) * 1500 ms apart. */
  lemma {:induction false} CooldownRespected(p: Progress, evs: seq<Event>)
    ensures forall i, j :: 0 <= i < j < |Accepted(p, evs)| ==>
      Accepted(p, evs)[j].at - Accepted(p, evs)[i].at > CollisionCooldown * (j - i)
    decreases |evs|
  {
    if evs != [] {
      var s := Apply(p, evs[0]);
      var rest := Accepted(s.next, evs[1..]);
      CooldownRespected(s.next, evs[1..]);
      if !s.effect.NoEffect? {
        CooldownSinceStart(s.next, evs[1..]);
        var a := Accepted(p, evs);
        assert a == [Acceptance(s.next.lastCollisionTime, s.effect)] + rest;
        forall i, j | 0 <= i < j < |a|
          ensures a[j].at - a[i].at > CollisionCooldown * (j - i)
        {
          assert a[j] == rest[j - 1];
          if i > 0 {
            assert a[i] == rest[i - 1];
          } else {
            assert a[i].at == s.next.lastCollisionTime;
            assert rest[j - 1].at - s.next.lastCollisionTime > CollisionCooldown * (j - 1 + 1);
          }
        }
      }
    }
  }

  /**
   * The schedule of accepted collisions: the k-th one reveals message
   * `messageIndex + k` while messages remain, and the first one after the
   * last message is the finale. Hence at most |Messages| - messageIndex + 1
   * collisions are accepted.
   */
  lemma {:induction false} AcceptanceSchedule(p: Progress, evs: seq<Event>)
    requires Valid(p)
    ensures var a := Accepted(p, evs);
      forall k :: 0 <= k < |a| ==>
        && (a[k].effect.Reveal? <==> p.messageIndex + k < |Messages|)
        && (a[k].effect.Reveal? ==> a[k].effect.text == Messages[p.messageIndex + k])
        && (a[k].effect.Finale? <==> p.messageIndex + k == |Messages|)
    ensures |Accepted(p, evs)| <= |Messages| - p.messageIndex + 1
    decreases |evs|
  {
    if evs != [] {
      var s := Apply(p, evs[0]);
      var rest := Accepted(s.next, evs[1..]);
      var a := Accepted(p, evs);
      match s.effect
      case NoEffect =>
        AcceptanceSchedule(s.next, evs[1..]);
      case Reveal(_) =>
        AcceptanceSchedule(s.next, evs[1..]);
        assert a == [Acceptance(s.next.lastCollisionTime, s.effect)] + rest;
        forall k | 1 <= k < |a|
          ensures a[k] == rest[k - 1]
        {
        }
      case Finale =>
        FinaleIsTerminal(s.next, evs[1..]);
        assert a == [Acceptance(s.next.lastCollisionTime, s.effect)];
    }
  }

  /** The finale fires at most once in any run. */
  lemma FinaleAtMostOnce(p: Progress, evs: seq<Event>, i: nat, j: nat)
    requires Valid(p)
    requires i < |Accepted(p, evs)| && j < |Accepted(p, evs)|
    requires Accepted(p, evs)[i].effect.Finale? && Accepted(p, evs)[j].effect.Finale?
    ensures i == j
  {
    AcceptanceSchedule(p, evs);
  }

  /** From a fresh engine the finale is the seventh accepted collision. */
  lemma FinaleAfterAllMessages(evs: seq<Event>, k: nat)
    requires k < |Accepted(Initial, evs)|
    ensures Accepted(Initial, evs)[k].effect.Finale? <==> k == |Messages|
    ensures k < |Messages| ==> Accepted(Initial, evs)[k].effect == Reveal(Messages[k])
  {
    AcceptanceSchedule(Initial, evs);
  }
}
