/**
 * The flag logic of `AudioController` in script.js. The Web Audio graph
 * (context, oscillators, gains, reverb impulse) is abstracted away: what is
 * kept is whether the controller is initialized, whether it is muted,
 * whether the drone oscillator has been created, and the level the master
 * gain was last set or ramped to. Whether the browser could construct an
 * AudioContext (`available`) and whether the context is suspended are inputs.
 */
module Audio {

  /** Master gain level after `init` and after unmuting. */
  const UnmutedLevel: real := 0.4

  datatype AudioFlags = AudioFlags(
    initialized: bool,
    isMuted: bool,
    droneStarted: bool,   // `droneOsc` is set
    masterLevel: real)    // meaningful once initialized

  /** The state the constructor leaves: not initialized, muted, no drone. */
  const Fresh: AudioFlags := AudioFlags(false, true, false, 0.0)

  /**
   * `init`: returns at once when already initialized; otherwise builds the
   * graph and, only if that succeeds, sets the master level and the flag
   * (a failure is caught and logged).
   */
  function AfterInit(f: AudioFlags, available: bool): (r: AudioFlags)
    ensures r.initialized == (f.initialized || available)
    ensures r.isMuted == f.isMuted && r.droneStarted == f.droneStarted
    ensures !f.initialized && available ==> r.masterLevel == UnmutedLevel
    ensures f.initialized ==> r == f
  {
    if f.initialized || !available then f else f.(initialized := true, masterLevel := UnmutedLevel)
  }

  /** `startDrone`: proceeds only when initialized AND muted. */
  function AfterStartDrone(f: AudioFlags): (r: AudioFlags)
    ensures r.droneStarted <==> f.droneStarted || (f.initialized && f.isMuted)
    ensures r.(droneStarted := f.droneStarted) == f
  {
    if !f.initialized || !f.isMuted then f else f.(droneStarted := true)
  }

  /** `playChime` schedules a tone only when initialized, running and unmuted. */
  predicate ChimePlays(f: AudioFlags, suspended: bool)
  {
    f.initialized && !suspended && !f.isMuted
  }

  /** `playFinale` schedules the chord only when initialized and unmuted. */
  predicate FinalePlays(f: AudioFlags)
  {
    f.initialized && !f.isMuted
  }

  /**
   * `toggleMute`: flip the flag first; then either initialize and try the
   * drone, or, when already initialized, start a missing drone on unmute and
   * ramp the master gain to 0.4 (unmute) or 0 (mute).
   */
  function AfterToggleMute(f: AudioFlags, available: bool): (r: AudioFlags)
    ensures r.isMuted == !f.isMuted
    ensures r.initialized == (f.initialized || available)
    ensures r.droneStarted <==> f.droneStarted || (!f.initialized && available && !f.isMuted)
    ensures f.initialized ==> r.masterLevel == if r.isMuted then 0.0 else UnmutedLevel
  {
    var g := f.(isMuted := !f.isMuted);
    if !g.initialized then
      AfterStartDrone(AfterInit(g, available))
    else if !g.isMuted then
      (if !g.droneStarted then AfterStartDrone(g) else g).(masterLevel := UnmutedLevel)
    else
      g.(masterLevel := 0.0)
  }

  /** `init` is idempotent once it has succeeded. */
  lemma InitIdempotent(f: AudioFlags, first: bool, second: bool)
    requires AfterInit(f, first).initialized
    ensures AfterInit(AfterInit(f, first), second) == AfterInit(f, first)
  {
  }

  /** Two toggles restore the mute flag. */
  lemma ToggleTwiceRestoresMute(f: AudioFlags, a: bool, b: bool)
    ensures AfterToggleMute(AfterToggleMute(f, a), b).isMuted == f.isMuted
  {
  }

  /** The operations of the controller the page can trigger. */
  datatype AudioOp =
    | InitOp(available: bool)          // from `startGame`
    | ToggleOp(available: bool)        // the music button
    | ChimeOp(suspended: bool)         // a collision
    | FinaleOp                         // the finale

  function Apply(f: AudioFlags, op: AudioOp): AudioFlags
  {
    match op
    case InitOp(a) => AfterInit(f, a)
    case ToggleOp(a) => AfterToggleMute(f, a)
    case ChimeOp(_) => f
    case FinaleOp => f
  }

  function Run(f: AudioFlags, ops: seq<AudioOp>): AudioFlags
    decreases |ops|
  {
    if ops == [] then f else Run(Apply(f, ops[0]), ops[1..])
  }

  /** Every attempt to construct the audio context succeeds. */
  predicate AlwaysAvailable(ops: seq<AudioOp>)
  {
    forall i :: 0 <= i < |ops| ==> (ops[i].InitOp? || ops[i].ToggleOp?) ==> ops[i].available
  }

  /** No drone yet, and never unmuted while uninitialized. */
  predicate Silent(f: AudioFlags)
  {
    !f.droneStarted && (!f.initialized ==> f.isMuted)
  }

  /**
   * The drone guard waits for `isMuted`, but `toggleMute` clears `isMuted`
   * before it asks for the drone: as long as the audio context can be built,
   * the drone is never started, whatever the page does.
   */
  lemma {:induction false} DroneNeverStarts(f: AudioFlags, ops: seq<AudioOp>)
    requires Silent(f) && AlwaysAvailable(ops)
    ensures Silent(Run(f, ops))
    ensures !Run(f, ops).droneStarted
    decreases |ops|
  {
    if ops != [] {
      assert ops[0].InitOp? || ops[0].ToggleOp? ==> ops[0].available;
      assert AlwaysAvailable(ops[1..]) by {
        forall i | 0 <= i < |ops[1..]| ensures (ops[1..][i].InitOp? || ops[1..][i].ToggleOp?) ==> ops[1..][i].available {
          assert ops[1..][i] == ops[i + 1];
        }
      }
      DroneNeverStarts(Apply(f, ops[0]), ops[1..]);
    }
  }

  /**
   * How the drone can start after all: the context cannot be built on the
   * first toggle (which unmutes) and can on the second (which mutes); the
   * drone then starts while the controller is muted.
   */
  lemma DroneCanStartAfterFailedInit()
    ensures var f := Run(Fresh, [ToggleOp(false), ToggleOp(true)]);
      f.droneStarted && f.isMuted && f.initialized
  {
  }

  /** The controller object; its methods follow the functions above. */
  class AudioController {
    var initialized: bool
    var isMuted: bool
    var droneStarted: bool
    var masterLevel: real

    function Flags(): AudioFlags
      reads this
    {
      AudioFlags(initialized, isMuted, droneStarted, masterLevel)
    }

    constructor ()
      ensures Flags() == Fresh
    {
      initialized, isMuted, droneStarted, masterLevel := false, true, false, 0.0;
    }

    method Init(available: bool)
      modifies this
      ensures Flags() == AfterInit(old(Flags()), available)
    {
      if initialized {
        return;
      }
      if available {
        masterLevel := UnmutedLevel;
        initialized := true;
      }
    }

    method StartDrone()
      modifies this
      ensures Flags() == AfterStartDrone(old(Flags()))
    {
      if !initialized || !isMuted {
        return;
      }
      droneStarted := true;
    }

    /** Whether a chime is scheduled. */
    method PlayChime(suspended: bool) returns (played: bool)
      ensures played == ChimePlays(Flags(), suspended)
    {
      if !initialized || suspended || isMuted {
        return false;
      }
      played := true;
    }

    /** Whether the finale chord is scheduled. */
    method PlayFinale() returns (played: bool)
      ensures played == FinalePlays(Flags())
    {
      if !initialized || isMuted {
        return false;
      }
      played := true;
    }

    method ToggleMute(available: bool)
      modifies this
      ensures Flags() == AfterToggleMute(old(Flags()), available)
    {
      isMuted := !isMuted;
      if !initialized {
        Init(available);
        StartDrone();
      } else {
        if !isMuted {
          if !droneStarted {
            StartDrone();
          }
          masterLevel := UnmutedLevel;
        } else {
          masterLevel := 0.0;
        }
      }
    }
  }
}
