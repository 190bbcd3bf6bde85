/**
 * The playback engine as the renderer and the player screen see it: the
 * engine's state enum, a status snapshot, and an abstract player object.
 *
 * The engine's own methods are placeholders in the repository, so the player
 * here is an abstraction: `Play` and `SetMediaURIAndPlay` move it to PLAYING,
 * `Pause` to PAUSED, and every command is appended to a log so that callers
 * can state how often, and with what, they drove it. Position and duration
 * are whatever the engine last reported.
 */
module Playback {
  import opened TimeFormat

  /** MediaPlayerManager.PlaybackState. */
  datatype PlaybackState = STOPPED | PLAYING | PAUSED | ERROR

  /** One reading of the engine: its state, position and duration in milliseconds. */
  datatype Snapshot = Snapshot(state: PlaybackState, position: Int32, duration: Int32)

  /** A command the engine received. */
  datatype Command = Play | Pause | SetMediaURIAndPlay(uri: string) | SetSurface | Release

  /** The URIs handed to `SetMediaURIAndPlay`, in order. */
  function Launches(log: seq<Command>): (uris: seq<string>)
    ensures forall u :: u in uris ==> Command.SetMediaURIAndPlay(u) in log
    ensures (forall i :: 0 <= i < |log| ==> !log[i].SetMediaURIAndPlay?) ==> uris == []
  {
    if log == [] then []
    else
      var last := log[|log| - 1];
      Launches(log[..|log| - 1]) + if last.SetMediaURIAndPlay? then [last.uri] else []
  }

  class MediaPlayerManager {
    var state: PlaybackState
    var position: Int32
    var duration: Int32
    var log: seq<Command>

    /** A new player: stopped, nothing commanded yet; position and duration read -1, as the placeholders return. */
    constructor ()
      ensures state == STOPPED && position == -1 && duration == -1 && log == []
    {
      state, position, duration, log := STOPPED, -1, -1, [];
    }

    method Play()
      modifies this
      ensures state == PLAYING && log == old(log) + [Command.Play]
      ensures position == old(position) && duration == old(duration)
    {
      state := PLAYING;
      log := log + [Command.Play];
    }

    method Pause()
      modifies this
      ensures state == PAUSED && log == old(log) + [Command.Pause]
      ensures position == old(position) && duration == old(duration)
    {
      state := PAUSED;
      log := log + [Command.Pause];
    }

    method SetMediaURIAndPlay(uri: string)
      modifies this
      ensures state == PLAYING && log == old(log) + [Command.SetMediaURIAndPlay(uri)]
      ensures position == old(position) && duration == old(duration)
    {
      state := PLAYING;
      log := log + [Command.SetMediaURIAndPlay(uri)];
    }

    /** Hands the player a display surface; playback is not affected. */
    method SetSurface()
      modifies this
      ensures log == old(log) + [Command.SetSurface]
      ensures state == old(state) && position == old(position) && duration == old(duration)
    {
      log := log + [Command.SetSurface];
    }

    method Release()
      modifies this
      ensures log == old(log) + [Command.Release]
      ensures state == old(state) && position == old(position) && duration == old(duration)
    {
      log := log + [Command.Release];
    }

    /** The engine's own progress: it may change state, position and duration at any time. */
    method Report(s: Snapshot)
      modifies this
      ensures state == s.state && position == s.position && duration == s.duration
      ensures log == old(log)
    {
      state, position, duration := s.state, s.position, s.duration;
    }
  }

  /** Appending a command adds a launch exactly when it is `SetMediaURIAndPlay`. */
  lemma LaunchesAppend(log: seq<Command>, c: Command)
    ensures Launches(log + [c]) == Launches(log) + if c.SetMediaURIAndPlay? then [c.uri] else []
  {
  }
}
