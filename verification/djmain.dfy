/**
 * The DJ cog of modules/DJ/main.py as an object whose commands update its
 * state in place.  The module-global `playlist_queue` is the `queue` field of
 * the one cog the bot loads; the guild's voice client is reduced to whether it
 * exists (`connected`), whether it is playing (`playing`), and whether the
 * `after` hook of the source it last started is still to run (`armed`).
 * Each method is proved against the matching step function of module
 * Playback, so every lemma proved there holds of the object.
 */
module DJMain {
  import opened Wrappers
  import opened Playback

  class DJ {
    var queue: seq<Url>
    var currentSong: Option<Song>
    var connected: bool
    var playing: bool
    var armed: bool
    const config: Config

    /** The abstract state the commands act on. */
    function State(): PlayerState
      reads this
    {
      PlayerState(queue, currentSong, connected, playing, armed)
    }

    ghost predicate Valid()
      reads this
    {
      Playback.Valid(State())
    }

    /**
     * Cog set-up: the queue holds the module's initial empty list, there is
     * no current song, and the settings are those read from the settings file
     * (`loaded`), or the defaults when it could not be read.
     */
    constructor (loaded: Option<Config>)
      ensures Valid() && State() == Initial
      ensures config == if loaded.Some? then loaded.value else DefaultConfig
    {
      queue := [];
      currentSong := None;
      connected := false;
      playing := false;
      armed := false;
      config := if loaded.Some? then loaded.value else DefaultConfig;
    }

    /** `play_next`: pop the head, re-resolve it, record its title, start output. */
    method PlayNext(resolve: Url -> Option<string>) returns (reply: Reply)
      requires Valid()
      modifies this
      ensures Valid()
      ensures Outcome(State(), reply) == Playback.PlayNext(old(State()), resolve)
    {
      reply := Silent;
      if queue != [] {
        var url := queue[0];
        queue := queue[1..];
        var info := resolve(url);
        if info.None? {
          return PlayFailed;
        }
        currentSong := Some(Song(info.value));
        if !connected || playing {
          return PlayFailed;
        }
        playing := true;
        armed := true;
        reply := NowPlaying(info.value);
      }
    }

    /** The `play` command. */
    method Play(inVoice: bool, found: Option<Track>, resolve: Url -> Option<string>) returns (reply: Reply)
      requires Valid()
      modifies this
      ensures Valid()
      ensures Outcome(State(), reply) == Playback.Play(old(State()), inVoice, found, resolve)
    {
      if !inVoice {
        return NeedVoiceChannel;
      }
      if !connected {
        connected := true;
      }
      if found.None? {
        return NotFound;
      }
      queue := queue + [found.value.url];
      if !playing {
        reply := PlayNext(resolve);
      } else {
        reply := AddedToQueue(found.value.title);
      }
    }

    /** The `skip` command. */
    method Skip() returns (reply: Reply)
      requires Valid()
      modifies this
      ensures Valid()
      ensures Outcome(State(), reply) == Playback.Skip(old(State()))
    {
      if connected && playing {
        playing := false;
        reply := Skipped;
      } else {
        reply := NothingToSkip;
      }
    }

    /** The `stop` command. */
    method Stop() returns (reply: Reply)
      requires Valid()
      modifies this
      ensures Valid()
      ensures Outcome(State(), reply) == Playback.Stop(old(State()))
    {
      if connected {
        queue := [];
        if playing {
          playing := false;
        }
        connected := false;
        reply := Stopped;
      } else {
        reply := NotInVoiceChannel;
      }
    }

    /**
     * The completion callback: the armed hook fires once, output has ended,
     * then `play_next` runs.  Without an armed hook there is no callback.
     */
    method OnTrackEnd(resolve: Url -> Option<string>) returns (reply: Reply)
      requires Valid()
      modifies this
      ensures Valid()
      ensures Outcome(State(), reply) == Playback.TrackEnd(old(State()), resolve)
    {
      if !armed {
        return Silent;
      }
      armed := false;
      playing := false;
      reply := PlayNext(resolve);
      if reply == PlayFailed {
        reply := Silent;
      }
    }
  }

  /**
   * A caller's view: idle with [A, B] queued, `play C` starts A; a skip and
   * its completion callback move on to B; `stop` and its callback leave the
   * bot idle and disconnected with an empty queue.
   */
  method SkipAndStopSession(dj: DJ, a: Url, b: Url, c: Track, resolve: Url -> Option<string>)
    returns (replies: seq<Reply>)
    requires dj.Valid() && dj.queue == [a, b] && !dj.playing
    requires resolve(a).Some? && resolve(b).Some?
    modifies dj
    ensures replies == [NowPlaying(resolve(a).value), Skipped, NowPlaying(resolve(b).value), Stopped, Silent]
    ensures dj.queue == [] && !dj.playing && !dj.connected && !dj.armed
    ensures dj.currentSong == Some(Song(resolve(b).value))
  {
    var r1 := dj.Play(true, Some(c), resolve);
    var r2 := dj.Skip();
    var r3 := dj.OnTrackEnd(resolve);
    assert dj.queue == [c.url];
    var r4 := dj.Stop();
    var r5 := dj.OnTrackEnd(resolve);
    replies := [r1, r2, r3, r4, r5];
  }
}
