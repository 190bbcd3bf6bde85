/**
 * The player screen's playback lifecycle (VideoPlayerActivity), apart from
 * its views: the flag that starts the video only once, the flag that
 * pauses it in the background and resumes it on return, the play/pause
 * toggle, and the progress display that is refreshed only when the duration
 * is known.
 */
module PlayerActivity {
  import opened Options
  import opened TimeFormat
  import opened Playback

  /** What the progress bar and its label show. */
  datatype Progress = Progress(max: int, position: int, text: string)

  /** The label under the progress bar: "position / duration". */
  function ProgressLabel(position: int, duration: int): (text: string)
    ensures |text| == |FormatTime(position)| + 3 + |FormatTime(duration)|
    ensures 0 <= position < 360_000_000 && 0 <= duration < 360_000_000 ==> |text| == 19
  {
    FormatTime(position) + " / " + FormatTime(duration)
  }

  /** The label splits back into the whole seconds of the position and of the duration. */
  lemma ProgressLabelReadsBack(position: int, duration: int)
    requires 0 <= position && 0 <= duration
    ensures var text, n := ProgressLabel(position, duration), |FormatTime(position)|;
      && n + 3 <= |text| && text[n..n + 3] == " / "
      && ParseTime(text[..n]) == Some(position / 1000)
      && ParseTime(text[n + 3..]) == Some(duration / 1000)
  {
    var p, d := FormatTime(position), FormatTime(duration);
    var text := ProgressLabel(position, duration);
    assert text[..|p|] == p;
    assert text[|p| + 3..] == d;
    FormatTimeRoundTrip(position);
    FormatTimeRoundTrip(duration);
  }

  class VideoPlayerActivity {
    var videoUri: string
    var mediaPlayerManager: MediaPlayerManager?
    var isVideoInitialized: bool
    var wasPlayingBeforeBackground: bool
    /** None until the first refresh: the layout's defaults are not part of this model. */
    var progress: Option<Progress>

    /**
     * The screen's player has been asked to load and play exactly once, with
     * the screen's URI, once the video is initialized, and never before.
     */
    ghost predicate Valid()
      reads this, mediaPlayerManager
    {
      mediaPlayerManager != null ==>
        Launches(mediaPlayerManager.log) == if isVideoInitialized then [videoUri] else []
    }

    /** onCreate: the URI comes from the launching intent ("" when absent); a fresh player is created. */
    constructor OnCreate(extraVideoUri: Option<string>)
      ensures Valid()
      ensures videoUri == (if extraVideoUri.Some? then extraVideoUri.value else "")
      ensures mediaPlayerManager != null && fresh(mediaPlayerManager) && mediaPlayerManager.log == []
      ensures !isVideoInitialized && !wasPlayingBeforeBackground && progress == None
    {
      videoUri := if extraVideoUri.Some? then extraVideoUri.value else "";
      mediaPlayerManager := new MediaPlayerManager();
      isVideoInitialized := false;
      wasPlayingBeforeBackground := false;
      progress := None;
    }

    /**
     * onResume: plays again only if the screen left while playing, and
     * clears that flag (even when the player is already gone).
     */
    method OnResume()
      requires Valid()
      modifies this, mediaPlayerManager
      ensures Valid()
      ensures !wasPlayingBeforeBackground
      ensures mediaPlayerManager == old(mediaPlayerManager) && videoUri == old(videoUri)
      ensures isVideoInitialized == old(isVideoInitialized) && progress == old(progress)
      ensures mediaPlayerManager != null ==>
        && mediaPlayerManager.log ==
             old(mediaPlayerManager.log) + (if old(wasPlayingBeforeBackground) then [Command.Play] else [])
        && mediaPlayerManager.state ==
             (if old(wasPlayingBeforeBackground) then PLAYING else old(mediaPlayerManager.state))
        && mediaPlayerManager.position == old(mediaPlayerManager.position)
        && mediaPlayerManager.duration == old(mediaPlayerManager.duration)
    {
      if wasPlayingBeforeBackground {
        if mediaPlayerManager != null {
          LaunchesAppend(mediaPlayerManager.log, Command.Play);
          mediaPlayerManager.Play();
        }
        wasPlayingBeforeBackground := false;
      }
    }

    /**
     * onPause: with a player, remembers whether it was playing and pauses it
     * only in that case; without one, nothing changes.
     */
    method OnPause()
      requires Valid()
      modifies this, mediaPlayerManager
      ensures Valid()
      ensures mediaPlayerManager == old(mediaPlayerManager) && videoUri == old(videoUri)
      ensures isVideoInitialized == old(isVideoInitialized) && progress == old(progress)
      ensures mediaPlayerManager == null ==> wasPlayingBeforeBackground == old(wasPlayingBeforeBackground)
      ensures mediaPlayerManager != null ==>
        var wasPlaying := old(mediaPlayerManager.state) == PLAYING;
        && wasPlayingBeforeBackground == wasPlaying
        && mediaPlayerManager.log == old(mediaPlayerManager.log) + (if wasPlaying then [Command.Pause] else [])
        && mediaPlayerManager.state == (if wasPlaying then PAUSED else old(mediaPlayerManager.state))
        && mediaPlayerManager.position == old(mediaPlayerManager.position)
        && mediaPlayerManager.duration == old(mediaPlayerManager.duration)
    {
      if mediaPlayerManager != null {
        wasPlayingBeforeBackground := mediaPlayerManager.state == PLAYING;
        if wasPlayingBeforeBackground {
          LaunchesAppend(mediaPlayerManager.log, Command.Pause);
          mediaPlayerManager.Pause();
        }
      }
    }

    /** onDestroy: releases the player and drops it; every later operation finds none. */
    method OnDestroy()
      requires Valid()
      modifies this, mediaPlayerManager
      ensures Valid()
      ensures mediaPlayerManager == null
      ensures old(mediaPlayerManager) != null ==>
        old(mediaPlayerManager).log == old(mediaPlayerManager.log) + [Command.Release]
      ensures videoUri == old(videoUri) && isVideoInitialized == old(isVideoInitialized)
      ensures wasPlayingBeforeBackground == old(wasPlayingBeforeBackground) && progress == old(progress)
    {
      if mediaPlayerManager != null {
        mediaPlayerManager.Release();
      }
      mediaPlayerManager := null;
    }

    /** The play/pause button: pause when PLAYING, play in every other state (STOPPED, PAUSED, ERROR). */
    method TogglePlayPause()
      requires Valid()
      modifies mediaPlayerManager
      ensures Valid()
      ensures mediaPlayerManager != null ==>
        var wasPlaying := old(mediaPlayerManager.state) == PLAYING;
        && mediaPlayerManager.log ==
             old(mediaPlayerManager.log) + [if wasPlaying then Command.Pause else Command.Play]
        && mediaPlayerManager.state == (if wasPlaying then PAUSED else PLAYING)
        && mediaPlayerManager.position == old(mediaPlayerManager.position)
        && mediaPlayerManager.duration == old(mediaPlayerManager.duration)
    {
      if mediaPlayerManager != null {
        if mediaPlayerManager.state == PLAYING {
          LaunchesAppend(mediaPlayerManager.log, Command.Pause);
          mediaPlayerManager.Pause();
        } else {
          LaunchesAppend(mediaPlayerManager.log, Command.Play);
          mediaPlayerManager.Play();
        }
      }
    }

    /**
     * updateProgress: refreshes the bar and its label from the player only
     * when the duration is known (positive); otherwise, and without a
     * player, the display keeps what it showed.
     */
    method UpdateProgress()
      requires Valid()
      modifies this
      ensures Valid()
      ensures mediaPlayerManager == old(mediaPlayerManager) && videoUri == old(videoUri)
      ensures isVideoInitialized == old(isVideoInitialized)
      ensures wasPlayingBeforeBackground == old(wasPlayingBeforeBackground)
      ensures progress ==
        if mediaPlayerManager != null && mediaPlayerManager.duration > 0 then
          Some(Progress(mediaPlayerManager.duration, mediaPlayerManager.position,
                        ProgressLabel(mediaPlayerManager.position, mediaPlayerManager.duration)))
        else old(progress)
    {
      if mediaPlayerManager != null {
        var position := mediaPlayerManager.position;
        var duration := mediaPlayerManager.duration;
        if duration > 0 {
          var positionStr := FormatTime(position);
          var durationStr := FormatTime(duration);
          progress := Some(Progress(duration, position, positionStr + " / " + durationStr));
        }
      }
    }

    /**
     * surfaceCreated: every call hands the player the surface; only the
     * first also loads and plays the screen's URI.
     */
    method SurfaceCreated()
      requires Valid()
      modifies this, mediaPlayerManager
      ensures Valid()
      ensures isVideoInitialized
      ensures mediaPlayerManager == old(mediaPlayerManager) && videoUri == old(videoUri)
      ensures wasPlayingBeforeBackground == old(wasPlayingBeforeBackground) && progress == old(progress)
      ensures mediaPlayerManager != null ==>
        && mediaPlayerManager.log == old(mediaPlayerManager.log) + [Command.SetSurface] +
             (if old(isVideoInitialized) then [] else [Command.SetMediaURIAndPlay(videoUri)])
        && mediaPlayerManager.state == (if old(isVideoInitialized) then old(mediaPlayerManager.state) else PLAYING)
    {
      if mediaPlayerManager != null {
        LaunchesAppend(mediaPlayerManager.log, Command.SetSurface);
        mediaPlayerManager.SetSurface();
      }
      if !isVideoInitialized {
        if mediaPlayerManager != null {
          LaunchesAppend(mediaPlayerManager.log, Command.SetMediaURIAndPlay(videoUri));
          mediaPlayerManager.SetMediaURIAndPlay(videoUri);
        }
        isVideoInitialized := true;
      }
    }

    /**
     * Leaving the screen and coming back (onPause, then onResume): the player
     * ends in the state it was in, paused and played again exactly when it
     * was PLAYING.
     */
    method LeaveAndReturn()
      requires Valid()
      modifies this, mediaPlayerManager
      ensures Valid()
      ensures !wasPlayingBeforeBackground && mediaPlayerManager == old(mediaPlayerManager)
      ensures mediaPlayerManager != null ==>
        && mediaPlayerManager.state == old(mediaPlayerManager.state)
        && mediaPlayerManager.log == old(mediaPlayerManager.log) +
             (if old(mediaPlayerManager.state) == PLAYING then [Command.Pause, Command.Play] else [])
    {
      OnPause();
      OnResume();
    }
  }
}
