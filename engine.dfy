/**
 * The media engine (AVPlayer) as the players see it: the calls they make on it.
 * Seeks complete later; each player keeps its queue of pending completions
 * and receives them, with the engine's `finished` flag, as explicit events.
 */
module Engine {
  import opened Wrappers
  import opened Protocol
  import opened Numbers

  /** Both players' slaves first re-seek when more than this far (seconds) from a commanded position. */
  const ResyncThreshold: real := 0.1

  /** Whether a slave is too far from the commanded position to play or pause in place. */
  function NeedsResync(current: real, target: real): (r: bool)
    ensures r <==> !(target - ResyncThreshold <= current <= target + ResyncThreshold)
  {
    Abs(current - target) > ResyncThreshold
  }

  datatype EngineCall =
    | PlayCall
    | PauseCall
      /** `seek(to:)`; `exact` when both tolerances are zero. */
    | SeekCall(position: real, exact: bool)
      /** `replaceCurrentItem` for the named video. */
    | LoadCall(videoName: Option<string>)

  /** One observable step of a player, in the order it happens: a call on the engine or a command handed to the service. */
  datatype Effect = Engine(call: EngineCall) | Sent(command: Command)

  /** `masterForward` in both players: the target never passes the end of the video. */
  function ForwardTarget(current: real, seconds: real, duration: real): (t: real)
    ensures t <= duration && t <= current + seconds
    ensures t == duration || t == current + seconds
    ensures 0.0 <= current <= duration && seconds >= 0.0 ==> current <= t <= duration
  {
    Min(current + seconds, duration)
  }

  /** `masterBackward` in both players: the target never goes before the start. */
  function BackwardTarget(current: real, seconds: real): (t: real)
    ensures t >= 0.0 && t >= current - seconds
    ensures t == 0.0 || t == current - seconds
    ensures 0.0 <= current && seconds >= 0.0 ==> 0.0 <= t <= current
  {
    Max(current - seconds, 0.0)
  }

  /** `play()` or `pause()` as a play state asks for it. */
  function PlayOrPause(play: bool): (c: EngineCall)
    ensures c == PlayCall <==> play
    ensures c == PauseCall <==> !play
  {
    if play then PlayCall else PauseCall
  }

  /** `service?.send…`: the command is handed over only when a service is attached. */
  function Outbox(service: Option<Role>, command: Command): (r: seq<Effect>)
    ensures service.Some? ==> r == [Sent(command)]
    ensures service.None? ==> r == []
  {
    if service.Some? then [Sent(command)] else []
  }
}
