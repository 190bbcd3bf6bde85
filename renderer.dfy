/**
 * The renderer's AVTransport service (MediaRendererService): the state
 * variables a control point reads, the six actions that set or read them,
 * and the periodic tick that reconciles them with the playback engine.
 *
 * `Variables` is the value of the state variables and `Apply` what one
 * action or tick does to it; the `MediaRendererService` class keeps the same
 * variables as fields updated in place, and each of its methods is proved to
 * do what `Apply` says. The lemmas after `Run` are about whole sequences of
 * actions.
 */
module Renderer {
  import opened Options
  import opened TimeFormat
  import Playback

  /** The values of the TransportState variable (AVTransport:1, section 2.2) that the renderer uses. */
  const STOPPED: string := "STOPPED"
  const PAUSED: string := "PAUSED_PLAYBACK"
  const PLAYING: string := "PLAYING"

  /** The default of the four time variables. */
  const ZERO_TIME: string := "00:00:00"

  /** InstanceID arguments are UPnP ui4 values; the service never looks at them. */
  type UInt32 = x: int | 0 <= x < 0x1_0000_0000

  predicate IsTransportState(s: string)
  {
    s == STOPPED || s == PLAYING || s == PAUSED
  }

  /**
   * The engine-to-protocol table of the tick: an engine error is reported
   * as STOPPED, since AVTransport has no error transport state.
   */
  function TransportStateOf(state: Playback.PlaybackState): (r: string)
    ensures IsTransportState(r)
    ensures r == PLAYING <==> state == Playback.PLAYING
    ensures r == PAUSED <==> state == Playback.PAUSED
    ensures r == STOPPED <==> state == Playback.STOPPED || state == Playback.ERROR
  {
    match state
    case STOPPED => STOPPED
    case PLAYING => PLAYING
    case PAUSED => PAUSED
    case ERROR => STOPPED
  }

  /** The protocol-visible state variables of the one transport instance. */
  datatype Variables = Variables(
    speed: string,
    currentURI: string,
    currentURIMetaData: string,
    currentTrackDuration: string,
    currentMediaDuration: string,
    currentTransportState: string,
    absTime: string,
    relTime: string)

  /** The declared defaults. */
  const Initial: Variables :=
    Variables("1", "", "", ZERO_TIME, ZERO_TIME, STOPPED, ZERO_TIME, ZERO_TIME)

  /**
   * What every action and tick keeps: a known transport state, track and
   * media duration equal, absolute and relative time equal.
   */
  predicate Consistent(v: Variables)
  {
    && IsTransportState(v.currentTransportState)
    && v.currentTrackDuration == v.currentMediaDuration
    && v.absTime == v.relTime
  }

  /** The state-changing actions, and one tick with a snapshot of a present engine. */
  datatype Action =
    | SetURI(uri: string, metadata: string)
    | PlayCmd(speed: string)
    | PauseCmd
    | StopCmd
    | Tick(snapshot: Playback.Snapshot)

  /**
   * One tick with the engine present: the state always follows the engine;
   * the four time variables are rewritten only when the duration is known
   * (positive) and are otherwise left as they were.
   */
  function Reconcile(v: Variables, snapshot: Playback.Snapshot): (r: Variables)
    ensures r.currentTransportState == TransportStateOf(snapshot.state)
    ensures r.currentURI == v.currentURI && r.currentURIMetaData == v.currentURIMetaData
    ensures r.speed == v.speed
    ensures TimesOf(r) == if snapshot.duration > 0 then SampleTimes(snapshot) else TimesOf(v)
  {
    var w := v.(currentTransportState := TransportStateOf(snapshot.state));
    if snapshot.duration > 0 then
      var duration, position := FormatTime(snapshot.duration), FormatTime(snapshot.position);
      w.(currentTrackDuration := duration, currentMediaDuration := duration,
         absTime := position, relTime := position)
    else
      w
  }

  /**
   * The effect of one action on the state variables. Every action is
   * accepted in every state and keeps them consistent; only SetURI touches
   * URI and metadata, only Play the speed, and only a tick with a known
   * duration the time variables.
   */
  function Apply(v: Variables, a: Action): (r: Variables)
    ensures Consistent(v) ==> Consistent(r)
    ensures a.SetURI? ==> r.currentTransportState == STOPPED
    ensures (r.currentURI, r.currentURIMetaData) ==
      if a.SetURI? then (a.uri, a.metadata) else (v.currentURI, v.currentURIMetaData)
    ensures r.speed == if a.PlayCmd? then a.speed else v.speed
    ensures TimesOf(r) == if a.Tick? && a.snapshot.duration > 0 then SampleTimes(a.snapshot) else TimesOf(v)
  {
    match a
    case SetURI(uri, metadata) =>
      v.(currentURI := uri, currentURIMetaData := metadata, currentTransportState := STOPPED)
    case PlayCmd(speed) => v.(currentTransportState := PLAYING, speed := speed)
    case PauseCmd => v.(currentTransportState := PAUSED)
    case StopCmd => v.(currentTransportState := STOPPED)
    case Tick(snapshot) => Reconcile(v, snapshot)
  }

  /** The state variables after a sequence of actions. */
  function Run(v: Variables, actions: seq<Action>): Variables
  {
    if actions == [] then v
    else Apply(Run(v, actions[..|actions| - 1]), actions[|actions| - 1])
  }

  /** The application context the service may hand a URI to: never registered, registered but collected, or live. */
  datatype ContextRef = Unset | Cleared | Live

  /**
   * The launch `play` posts: the player screen is started with the current
   * URI only when that URI is non-empty and a live context is registered.
   */
  function LaunchRequest(v: Variables, context: ContextRef): (launch: Option<string>)
    ensures launch.Some? <==> v.currentURI != "" && context == Live
    ensures launch.Some? ==> launch.value == v.currentURI
  {
    if v.currentURI != "" && context.Live? then Some(v.currentURI) else None
  }

  /** The last snapshot with a known (positive) duration, if any. */
  function LastTimedSample(actions: seq<Action>): Option<Playback.Snapshot>
  {
    if actions == [] then None
    else
      var a := actions[|actions| - 1];
      if a.Tick? && a.snapshot.duration > 0 then Some(a.snapshot)
      else LastTimedSample(actions[..|actions| - 1])
  }

  /** The URI and metadata of the last SetURI, if any. */
  function LastSource(actions: seq<Action>): Option<(string, string)>
  {
    if actions == [] then None
    else
      var a := actions[|actions| - 1];
      if a.SetURI? then Some((a.uri, a.metadata)) else LastSource(actions[..|actions| - 1])
  }

  /** The speed of the last Play, if any. */
  function LastSpeed(actions: seq<Action>): Option<string>
  {
    if actions == [] then None
    else
      var a := actions[|actions| - 1];
      if a.PlayCmd? then Some(a.speed) else LastSpeed(actions[..|actions| - 1])
  }

  /** Every action and tick keeps the variables consistent. */
  lemma {:induction false} RunKeepsConsistent(v: Variables, actions: seq<Action>)
    requires Consistent(v)
    ensures Consistent(Run(v, actions))
  {
    if actions != [] {
      RunKeepsConsistent(v, actions[..|actions| - 1]);
    }
  }

  /** The four time variables. */
  datatype Times = Times(trackDuration: string, mediaDuration: string, absTime: string, relTime: string)

  function TimesOf(v: Variables): Times
  {
    Times(v.currentTrackDuration, v.currentMediaDuration, v.absTime, v.relTime)
  }

  /** What a snapshot with a known duration shows: its duration twice, then its position twice. */
  function SampleTimes(snapshot: Playback.Snapshot): Times
  {
    var duration, position := FormatTime(snapshot.duration), FormatTime(snapshot.position);
    Times(duration, duration, position, position)
  }

  /**
   * The time variables show the most recent sample whose duration was
   * known, and are never reset: with no such sample they keep their
   * starting values.
   */
  lemma {:induction false} RunTimesFollowLastTimedSample(v: Variables, actions: seq<Action>)
    ensures TimesOf(Run(v, actions)) ==
      match LastTimedSample(actions)
      case None => TimesOf(v)
      case Some(snapshot) => SampleTimes(snapshot)
  {
    if actions != [] {
      var prefix, a := actions[..|actions| - 1], actions[|actions| - 1];
      RunTimesFollowLastTimedSample(v, prefix);
    }
  }

  /**
   * From the defaults, the durations are the formatted duration of the last
   * timed sample, or of 0 when there was none: "00:00:00" is what formatting
   * zero milliseconds gives.
   */
  lemma TimesFromDefaults(actions: seq<Action>)
    ensures var r := Run(Initial, actions);
      var sample := LastTimedSample(actions);
      && r.currentTrackDuration == FormatTime(if sample.Some? then sample.value.duration else 0)
      && r.absTime == FormatTime(if sample.Some? then sample.value.position else 0)
  {
    RunTimesFollowLastTimedSample(Initial, actions);
    FormatTimeBelowOneSecond(0);
  }

  /** URI and metadata are always those of the same SetURI: they are only ever set together. */
  lemma {:induction false} RunSourceFollowsLastSetURI(v: Variables, actions: seq<Action>)
    ensures var r := Run(v, actions);
      (r.currentURI, r.currentURIMetaData) ==
        if LastSource(actions).Some? then LastSource(actions).value
        else (v.currentURI, v.currentURIMetaData)
  {
    if actions != [] {
      RunSourceFollowsLastSetURI(v, actions[..|actions| - 1]);
    }
  }

  /** Speed is only ever set by Play. */
  lemma {:induction false} RunSpeedFollowsLastPlay(v: Variables, actions: seq<Action>)
    ensures Run(v, actions).speed ==
      if LastSpeed(actions).Some? then LastSpeed(actions).value else v.speed
  {
    if actions != [] {
      RunSpeedFollowsLastPlay(v, actions[..|actions| - 1]);
    }
  }

  /**
   * Play does not look at the URI: from the defaults, a lone Play leaves the
   * URI empty and the transport PLAYING, and posts no launch.
   */
  lemma PlayWithoutURI(context: ContextRef)
    ensures var r := Run(Initial, [PlayCmd("1")]);
      r.currentURI == "" && r.currentTransportState == PLAYING && LaunchRequest(r, context) == None
  {
  }

  /**
   * SetURI then Play: the transport is PLAYING on the new URI, and the
   * launch is posted with that URI whenever it is non-empty and the context
   * is live. A second Play leaves the variables as they are and posts the
   * same launch again.
   */
  lemma SetURIThenPlay(v: Variables, uri: string, metadata: string, speed: string, context: ContextRef)
    ensures var r := Apply(Apply(v, SetURI(uri, metadata)), PlayCmd(speed));
      && r.currentTransportState == PLAYING && r.currentURI == uri
      && r.currentURIMetaData == metadata && r.speed == speed
      && LaunchRequest(r, context) == (if uri != "" && context == Live then Some(uri) else None)
      && Apply(r, PlayCmd(speed)) == r
  {
  }

  class MediaRendererService {
    var speed: string
    var currentURI: string
    var currentURIMetaData: string
    var currentTrackDuration: string
    var currentMediaDuration: string
    var currentTransportState: string
    var absTime: string
    var relTime: string

    /** The current values of the state variables. */
    function Values(): Variables
      reads this
    {
      Variables(speed, currentURI, currentURIMetaData, currentTrackDuration,
                currentMediaDuration, currentTransportState, absTime, relTime)
    }

    ghost predicate Valid()
      reads this
    {
      Consistent(Values())
    }

    /** Every variable starts at its declared default. */
    constructor ()
      ensures Valid() && Values() == Initial
    {
      speed := "1";
      currentURI := "";
      currentURIMetaData := "";
      currentTrackDuration := ZERO_TIME;
      currentMediaDuration := ZERO_TIME;
      currentTransportState := STOPPED;
      absTime := ZERO_TIME;
      relTime := ZERO_TIME;
    }

    /** Stores URI and metadata together and stops the transport, whatever its state. */
    method SetAVTransportURI(instanceId: UInt32, uri: string, metadata: string)
      requires Valid()
      modifies this
      ensures Valid()
      ensures currentURI == uri && currentURIMetaData == metadata && currentTransportState == STOPPED
      ensures speed == old(speed)
      ensures currentTrackDuration == old(currentTrackDuration) && currentMediaDuration == old(currentMediaDuration)
      ensures absTime == old(absTime) && relTime == old(relTime)
      ensures Values() == Apply(old(Values()), SetURI(uri, metadata))
    {
      currentURI := uri;
      currentURIMetaData := metadata;
      currentTransportState := STOPPED;
    }

    /**
     * Sets PLAYING and the speed unconditionally, and returns the launch the
     * action posts: the current URI when it is non-empty and a live context
     * is registered, none otherwise.
     */
    method Play(instanceId: UInt32, speed: string, context: ContextRef) returns (launch: Option<string>)
      requires Valid()
      modifies this
      ensures Valid()
      ensures currentTransportState == PLAYING && this.speed == speed
      ensures currentURI == old(currentURI) && currentURIMetaData == old(currentURIMetaData)
      ensures currentTrackDuration == old(currentTrackDuration) && currentMediaDuration == old(currentMediaDuration)
      ensures absTime == old(absTime) && relTime == old(relTime)
      ensures Values() == Apply(old(Values()), PlayCmd(speed))
      ensures launch == (if currentURI != "" && context == Live then Some(currentURI) else None)
      ensures launch == LaunchRequest(Values(), context)
    {
      currentTransportState := PLAYING;
      this.speed := speed;
      if currentURI != "" && context == Live {
        launch := Some(currentURI);
      } else {
        launch := None;
      }
    }

    /** Sets PAUSED_PLAYBACK from any state; nothing else changes. */
    method Pause(instanceId: UInt32)
      requires Valid()
      modifies this
      ensures Valid()
      ensures currentTransportState == PAUSED
      ensures Values() == old(Values()).(currentTransportState := PAUSED)
      ensures Values() == Apply(old(Values()), PauseCmd)
    {
      currentTransportState := PAUSED;
    }

    /** Sets STOPPED from any state; the URI is kept and nothing else changes. */
    method Stop(instanceId: UInt32)
      requires Valid()
      modifies this
      ensures Valid()
      ensures currentTransportState == STOPPED
      ensures Values() == old(Values()).(currentTransportState := STOPPED)
      ensures Values() == Apply(old(Values()), StopCmd)
    {
      currentTransportState := STOPPED;
    }

    /** Reports the transport state, one of the three values. */
    method GetTransportInfo(instanceId: UInt32) returns (state: string)
      requires Valid()
      ensures state == currentTransportState
      ensures IsTransportState(state)
    {
      state := currentTransportState;
    }

    /** Reports the current URI: the one last set, or "" if none was. */
    method GetMediaInfo(instanceId: UInt32) returns (uri: string)
      ensures uri == currentURI
    {
      uri := currentURI;
    }

    /**
     * updatePlaybackStatus: one tick. Nothing happens when the engine
     * (`player` is None) or the service is absent; otherwise the transport
     * state follows the engine, and the four time variables are rewritten
     * from the snapshot only when its duration is positive.
     */
    static method UpdatePlaybackStatus(player: Option<Playback.Snapshot>, service: MediaRendererService?)
      requires service != null ==> service.Valid()
      modifies service
      ensures service != null ==> service.Valid()
      ensures service != null && player.None? ==> service.Values() == old(service.Values())
      ensures service != null && player.Some? ==>
        var s := player.value;
        && service.currentTransportState == TransportStateOf(s.state)
        && service.currentURI == old(service.currentURI)
        && service.currentURIMetaData == old(service.currentURIMetaData)
        && service.speed == old(service.speed)
        && (s.duration > 0 ==>
              && service.currentTrackDuration == FormatTime(s.duration)
              && service.currentMediaDuration == FormatTime(s.duration)
              && service.absTime == FormatTime(s.position)
              && service.relTime == FormatTime(s.position))
        && (s.duration <= 0 ==>
              && service.currentTrackDuration == old(service.currentTrackDuration)
              && service.currentMediaDuration == old(service.currentMediaDuration)
              && service.absTime == old(service.absTime)
              && service.relTime == old(service.relTime))
      ensures service != null && player.Some? ==>
        service.Values() == Apply(old(service.Values()), Tick(player.value))
    {
      if player.None? || service == null {
        return;
      }
      var s := player.value;
      match s.state {
        case STOPPED => service.currentTransportState := "STOPPED";
        case PLAYING => service.currentTransportState := "PLAYING";
        case PAUSED => service.currentTransportState := "PAUSED_PLAYBACK";
        case ERROR => service.currentTransportState := "STOPPED";
      }
      ghost var stated := service.Values();
      assert stated == old(service.Values()).(currentTransportState := TransportStateOf(s.state));
      var position, duration := s.position, s.duration;
      if duration > 0 {
        service.ShowTimes(FormatTime(position), FormatTime(duration));
      }
      assert service.Values() == Reconcile(old(service.Values()), s);
    }

    /** The four time variables of one tick with a known duration. */
    method ShowTimes(formattedPosition: string, formattedDuration: string)
      modifies this
      ensures Values() == old(Values()).(
        currentTrackDuration := formattedDuration, currentMediaDuration := formattedDuration,
        absTime := formattedPosition, relTime := formattedPosition)
    {
      currentTrackDuration := formattedDuration;
      currentMediaDuration := formattedDuration;
      absTime := formattedPosition;
      relTime := formattedPosition;
    }
  }
}
