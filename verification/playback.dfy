/**
 * The DJ cog's playback queue as a pure state machine (modules/DJ/main.py).
 *
 * A `PlayerState` holds the process-wide queue of canonical URLs, the cog's
 * `current_song`, the two facts about the guild's voice client the code
 * consults (whether there is one, and whether it is playing), and whether
 * the `after` hook of the last started source is still to run.  Every command
 * and the audio-completion callback is a function from a state (and the
 * results of the external calls it makes) to an `Outcome`: the next state and
 * the reply the user sees.  The class in DJMain is proved against these
 * functions; the lemmas below state what the commands promise.
 */
module Playback {
  import opened Wrappers

  /** A canonical page URL, as stored in the queue. */
  type Url = string

  /** What a search resolves to: the canonical URL and the display title. */
  datatype Track = Track(url: Url, title: string)

  /** The cog's `current_song` record. */
  datatype Song = Song(title: string)

  /** The settings record the cog loads; nothing in the commands reads it. */
  datatype Config = Config(maxQueueSize: int, autoDisconnectMinutes: int, allowedSources: seq<string>)

  /** The settings used when the settings file cannot be read. */
  const DefaultConfig := Config(50, 5, ["youtube"])

  /** The reply a command sends (message text and emoji are not modelled). */
  datatype Reply =
    | NeedVoiceChannel        // play: the user is not in a voice channel
    | NotFound                // play: the search found nothing or failed
    | AddedToQueue(title: string)
    | NowPlaying(title: string)
    | PlayFailed              // play: the generic error message
    | Skipped
    | NothingToSkip
    | Stopped
    | NotInVoiceChannel       // stop: the bot has no voice connection
    | Silent                  // no message at all

  datatype PlayerState = PlayerState(
    queue: seq<Url>,          // the global playlist_queue, head first
    current: Option<Song>,    // the cog's current_song
    connected: bool,          // the guild has a voice client
    playing: bool,            // the voice client is playing
    armed: bool               // a started source's `after` hook has not run yet
  )

  datatype Outcome = Outcome(state: PlayerState, reply: Reply)

  /** The state of a freshly loaded cog. */
  const Initial := PlayerState([], None, false, false, false)

  /**
   * Audio can only be playing through an existing voice connection, and
   * entries wait in the queue only while there is one: `play` joins before
   * it appends, and `stop` empties the queue when it disconnects.  Audio
   * that plays was started with an `after` hook, which runs once it ends.
   */
  predicate Valid(s: PlayerState) {
    (s.playing ==> s.connected && s.armed) && (s.queue != [] ==> s.connected)
  }

  /**
   * `play_next`: when the queue is non-empty, pop its head, re-resolve it
   * (`resolve` stands for the extraction call; `None` is an extraction
   * error, raised after the pop), record the title as the current song and
   * start output.  Starting output raises when there is no voice client or
   * audio is already playing, again after the pop and the title update;
   * only a source that starts arms its `after` hook.
   * An empty queue changes nothing and says nothing.
   */
  function PlayNext(s: PlayerState, resolve: Url -> Option<string>): (o: Outcome)
    ensures Valid(s) ==> Valid(o.state)
    ensures o.state.connected == s.connected
  {
    if s.queue == [] then Outcome(s, Silent)
    else
      var rest := s.queue[1..];
      match resolve(s.queue[0])
      case None => Outcome(s.(queue := rest), PlayFailed)
      case Some(title) =>
        var updated := s.(queue := rest, current := Some(Song(title)));
        if !s.connected || s.playing then Outcome(updated, PlayFailed)
        else Outcome(updated.(playing := true, armed := true), NowPlaying(title))
  }

  /**
   * The `play` command.  `inVoice` says whether the user is in a voice
   * channel; `found` is the search result (`None` when extraction failed or
   * found nothing).  The bot joins the channel before searching; a found URL
   * is appended to the tail and, when nothing is playing, `play_next` runs.
   */
  function Play(s: PlayerState, inVoice: bool, found: Option<Track>, resolve: Url -> Option<string>): (o: Outcome)
    ensures Valid(s) ==> Valid(o.state)
  {
    if !inVoice then Outcome(s, NeedVoiceChannel)
    else
      var joined := s.(connected := true);
      match found
      case None => Outcome(joined, NotFound)
      case Some(t) =>
        var queued := joined.(queue := joined.queue + [t.url]);
        if queued.playing then Outcome(queued, AddedToQueue(t.title))
        else PlayNext(queued, resolve)
  }

  /**
   * The `skip` command: stopping output is all it does; the advance is the
   * callback's, whose hook stays armed.
   */
  function Skip(s: PlayerState): (o: Outcome)
    ensures Valid(s) ==> Valid(o.state)
    ensures o.state.queue == s.queue && o.state.current == s.current && o.state.armed == s.armed
  {
    if s.connected && s.playing then Outcome(s.(playing := false), Skipped)
    else Outcome(s, NothingToSkip)
  }

  /**
   * The `stop` command: with a voice connection, clear the queue, stop output
   * and disconnect.  Stopping output does not disarm the `after` hook.
   */
  function Stop(s: PlayerState): (o: Outcome)
    ensures Valid(s) ==> Valid(o.state)
    ensures o.state.current == s.current && o.state.armed == s.armed
  {
    if s.connected then Outcome(s.(queue := [], playing := false, connected := false), Stopped)
    else Outcome(s, NotInVoiceChannel)
  }

  /**
   * The audio-completion callback, run as one sequential event: the armed
   * `after` hook fires once, output has ended, then `play_next` runs.  An
   * error inside it is dropped with the coroutine's future, so the user sees
   * nothing.  With no hook armed there is no callback, and nothing happens.
   */
  function TrackEnd(s: PlayerState, resolve: Url -> Option<string>): (o: Outcome)
    ensures Valid(s) ==> Valid(o.state)
    ensures !s.armed ==> o == Outcome(s, Silent)
    ensures s.armed && !s.playing ==> o.state == PlayNext(s.(armed := false), resolve).state
    ensures s.armed && !s.playing && PlayNext(s.(armed := false), resolve).reply != PlayFailed ==>
      o.reply == PlayNext(s.(armed := false), resolve).reply
  {
    if !s.armed then Outcome(s, Silent)
    else
      var next := PlayNext(s.(playing := false, armed := false), resolve);
      if next.reply == PlayFailed then Outcome(next.state, Silent) else next
  }

  /** `n` completion events in a row: the final state and the replies in order. */
  function EndTracks(s: PlayerState, n: nat, resolve: Url -> Option<string>): (PlayerState, seq<Reply>)
    decreases n
  {
    if n == 0 then (s, [])
    else
      var o := TrackEnd(s, resolve);
      var (t, replies) := EndTracks(o.state, n - 1, resolve);
      (t, [o.reply] + replies)
  }

  /** The title `resolve` gives a URL it resolves. */
  function TitleOf(resolve: Url -> Option<string>, url: Url): string
    requires resolve(url).Some?
  {
    resolve(url).value
  }

  /** Every URL in `urls` resolves to a title. */
  ghost predicate AllResolve(resolve: Url -> Option<string>, urls: seq<Url>) {
    forall i :: 0 <= i < |urls| ==> resolve(urls[i]).Some?
  }

  /** The "now playing" replies for `urls`, in order. */
  function Announce(resolve: Url -> Option<string>, urls: seq<Url>): seq<Reply>
    requires AllResolve(resolve, urls)
  {
    if urls == [] then [] else [NowPlaying(TitleOf(resolve, urls[0]))] + Announce(resolve, urls[1..])
  }

  // ---------------------------------------------------------------- play

  /** Outside a voice channel `play` answers and changes nothing. */
  lemma PlayOutsideVoiceChannel(s: PlayerState, found: Option<Track>, resolve: Url -> Option<string>)
    ensures Play(s, false, found, resolve) == Outcome(s, NeedVoiceChannel)
  {
  }

  /** A failed search appends nothing and leaves the song and output alone; only the join happened. */
  lemma PlayNotFoundKeepsQueue(s: PlayerState, resolve: Url -> Option<string>)
    ensures Play(s, true, None, resolve) == Outcome(s.(connected := true), NotFound)
  {
  }

  /** While audio plays, `play` appends exactly the found URL to the tail and nothing else changes. */
  lemma PlayWhilePlayingAppends(s: PlayerState, t: Track, resolve: Url -> Option<string>)
    requires s.playing
    ensures var o := Play(s, true, Some(t), resolve);
      o.reply == AddedToQueue(t.title) && o.state == s.(queue := s.queue + [t.url], connected := true)
  {
  }

  /**
   * Appending neither deduplicates nor consults the configured maximum: with
   * a queue already at the default limit and already holding the URL, the
   * URL still goes to the tail.  While audio plays the queue then grows by
   * one more copy of it; when idle the head is dequeued afterwards, as always.
   */
  lemma PlayIgnoresMaxQueueSize(s: PlayerState, t: Track, resolve: Url -> Option<string>)
    requires |s.queue| >= DefaultConfig.maxQueueSize && t.url in s.queue
    ensures var q := Play(s, true, Some(t), resolve).state.queue;
      q == (if s.playing then s.queue + [t.url] else s.queue[1..] + [t.url])
    ensures var q := Play(s, true, Some(t), resolve).state.queue;
      s.playing ==> |q| > DefaultConfig.maxQueueSize && multiset(q)[t.url] == multiset(s.queue)[t.url] + 1
  {
    if s.playing {
      PlayWhilePlayingAppends(s, t, resolve);
    } else {
      PlayWhenIdleStartsHead(s, t, resolve);
    }
  }

  /**
   * When idle, `play` appends first and then dequeues the HEAD: the found
   * track starts only if the queue was empty, otherwise the oldest entry
   * starts and the found URL waits at the tail.
   */
  lemma PlayWhenIdleStartsHead(s: PlayerState, t: Track, resolve: Url -> Option<string>)
    requires !s.playing
    ensures var o := Play(s, true, Some(t), resolve);
      var head := if s.queue == [] then t.url else s.queue[0];
      o.state.queue == (if s.queue == [] then [] else s.queue[1..] + [t.url]) &&
      o.state.connected &&
      (resolve(head).Some? ==>
        o.state.playing && o.state.armed && o.state.current == Some(Song(resolve(head).value)) &&
        o.reply == NowPlaying(resolve(head).value)) &&
      (resolve(head).None? ==>
        !o.state.playing && o.state.armed == s.armed && o.state.current == s.current && o.reply == PlayFailed)
  {
    var q := s.queue + [t.url];
    assert q[0] == if s.queue == [] then t.url else s.queue[0];
    if s.queue != [] {
      assert q[1..] == s.queue[1..] + [t.url];
    }
  }

  // ---------------------------------------------------------------- play_next

  /** On an empty queue `play_next` does nothing: `current_song` in particular is never cleared. */
  lemma PlayNextOnEmptyQueue(s: PlayerState, resolve: Url -> Option<string>)
    requires s.queue == []
    ensures PlayNext(s, resolve) == Outcome(s, Silent)
  {
  }

  /**
   * On a non-empty queue `play_next` removes exactly the head and keeps the
   * rest in order, whatever happens next.  A failed re-resolution loses the
   * head and changes nothing else; with a voice client and nothing playing,
   * a head that resolves becomes the current song and starts playing.
   */
  lemma PlayNextPopsHead(s: PlayerState, resolve: Url -> Option<string>)
    requires s.queue != []
    ensures var o := PlayNext(s, resolve);
      o.state.queue == s.queue[1..] && o.state.connected == s.connected
    ensures var o := PlayNext(s, resolve);
      resolve(s.queue[0]).None? ==> o.state == s.(queue := s.queue[1..]) && o.reply == PlayFailed
    ensures var o := PlayNext(s, resolve);
      resolve(s.queue[0]).Some? && s.connected && !s.playing ==>
        o.state.playing && o.state.armed && o.state.current == Some(Song(resolve(s.queue[0]).value)) &&
        o.reply == NowPlaying(resolve(s.queue[0]).value)
    ensures var o := PlayNext(s, resolve);
      resolve(s.queue[0]).Some? && (!s.connected || s.playing) ==>
        o.state == s.(queue := s.queue[1..], current := Some(Song(resolve(s.queue[0]).value))) &&
        o.reply == PlayFailed
  {
  }

  /**
   * A head that no longer resolves is lost inside the completion callback,
   * and since nothing starts playing no hook is armed: no number of further
   * completion events, and no `skip`, moves the rest of the queue, which
   * waits until the next `play` dequeues its head or `stop` clears it.
   */
  lemma FailedResolutionStallsQueue(s: PlayerState, resolve: Url -> Option<string>, n: nat, later: Url -> Option<string>)
    requires s.armed && s.queue != [] && resolve(s.queue[0]).None?
    ensures TrackEnd(s, resolve) == Outcome(s.(queue := s.queue[1..], playing := false, armed := false), Silent)
    ensures var t := TrackEnd(s, resolve).state;
      EndTracks(t, n, later).0 == t && Skip(t) == Outcome(t, NothingToSkip)
  {
    EndTracksWithoutHook(TrackEnd(s, resolve).state, n, later);
  }

  /** With no `after` hook armed, completion events change nothing and say nothing. */
  lemma {:induction false} EndTracksWithoutHook(s: PlayerState, n: nat, resolve: Url -> Option<string>)
    requires !s.armed
    decreases n
    ensures EndTracks(s, n, resolve).0 == s && |EndTracks(s, n, resolve).1| == n
    ensures forall i :: 0 <= i < n ==> EndTracks(s, n, resolve).1[i] == Silent
  {
    if n > 0 {
      EndTracksWithoutHook(s, n - 1, resolve);
    }
  }

  /** `n` completion events give exactly `n` replies. */
  lemma {:induction false} EndTracksLength(s: PlayerState, n: nat, resolve: Url -> Option<string>)
    decreases n
    ensures |EndTracks(s, n, resolve).1| == n
  {
    if n > 0 {
      EndTracksLength(TrackEnd(s, resolve).state, n - 1, resolve);
    }
  }

  // ---------------------------------------------------------------- skip

  /** Without a voice client, or with nothing playing, `skip` changes nothing. */
  lemma SkipWhenIdle(s: PlayerState)
    requires !s.connected || !s.playing
    ensures Skip(s) == Outcome(s, NothingToSkip)
  {
  }

  /**
   * `skip` only stops output; the advance to the next entry is the
   * completion callback's, and it is exactly the one a natural end of the
   * track would have caused.
   */
  lemma SkipAdvancesThroughCallback(s: PlayerState, resolve: Url -> Option<string>)
    requires Valid(s) && s.playing
    ensures Skip(s).state == s.(playing := false) && Skip(s).reply == Skipped
    ensures TrackEnd(Skip(s).state, resolve) == TrackEnd(s, resolve)
  {
  }

  // ---------------------------------------------------------------- stop

  /**
   * With a voice connection `stop` empties the queue before output stops, so
   * the completion callback it triggers (if a hook is armed) finds nothing to
   * play: the bot ends idle and disconnected with no hook armed, and
   * `current_song` keeps the last title.
   */
  lemma StopThenCallbackStaysIdle(s: PlayerState, resolve: Url -> Option<string>)
    requires s.connected
    ensures Stop(s).reply == Stopped
    ensures var t := TrackEnd(Stop(s).state, resolve);
      t.state == PlayerState([], s.current, false, false, false) && t.reply == Silent
  {
  }

  /** Without a voice connection `stop` leaves the queue as it is. */
  lemma StopWithoutConnection(s: PlayerState)
    requires !s.connected
    ensures Stop(s) == Outcome(s, NotInVoiceChannel)
  {
  }

  // ---------------------------------------------------------------- FIFO

  /**
   * While a hook is armed, each completion event consumes exactly one entry,
   * and the n-th one does so whether or not it resolves: after n events
   * whose first n - 1 entries resolve, the queue is its own suffix from n.
   */
  lemma {:induction false} EndTracksConsumesPrefix(s: PlayerState, n: nat, resolve: Url -> Option<string>)
    requires s.armed && s.connected && n <= |s.queue|
    requires n == 0 || AllResolve(resolve, s.queue[..n - 1])
    decreases n
    ensures EndTracks(s, n, resolve).0.queue == s.queue[n..]
    ensures |EndTracks(s, n, resolve).1| == n
  {
    EndTracksLength(s, n, resolve);
    if n > 0 {
      var o := TrackEnd(s, resolve);
      assert o.state.queue == s.queue[1..];
      if n > 1 {
        assert s.queue[..n - 1][0] == s.queue[0];
        assert o.state.armed && o.state.connected;
        assert s.queue[..n - 1][1..] == o.state.queue[..n - 2];
        EndTracksConsumesPrefix(o.state, n - 1, resolve);
      }
      assert s.queue[1..][n - 1..] == s.queue[n..];
    }
  }

  /**
   * First in, first out: with a voice connection, a hook armed and every entry resolving,
   * n completion events announce the first n queued entries in queue order,
   * each exactly once, and leave the n-th one playing.
   */
  lemma {:induction false} EndTracksPlaysInOrder(s: PlayerState, n: nat, resolve: Url -> Option<string>)
    requires s.armed && s.connected && n <= |s.queue| && AllResolve(resolve, s.queue[..n])
    decreases n
    ensures var (t, replies) := EndTracks(s, n, resolve);
      replies == Announce(resolve, s.queue[..n]) && t.connected && t.armed &&
      (n > 0 ==> t.playing && t.current == Some(Song(TitleOf(resolve, s.queue[n - 1]))))
  {
    if n > 0 {
      var o := TrackEnd(s, resolve);
      assert s.queue[..n][0] == s.queue[0];
      assert o.state.queue == s.queue[1..] && o.state.connected && o.state.armed;
      assert o.reply == NowPlaying(TitleOf(resolve, s.queue[0]));
      assert s.queue[..n][1..] == o.state.queue[..n - 1];
      EndTracksPlaysInOrder(o.state, n - 1, resolve);
      if n == 1 {
        assert EndTracks(o.state, 0, resolve).0 == o.state;
      } else {
        assert o.state.queue[n - 2] == s.queue[n - 1];
      }
    }
  }

  /**
   * Example: queue [A, B], idle, and `play C`.  A starts (not C)
   * and the queue becomes [B, C]; the next two completions play B and then C;
   * the third finds the queue empty, goes idle, and keeps C as the current song.
   */
  lemma {:induction false} BacklogScenario(s: PlayerState, a: Url, b: Url, c: Track, resolve: Url -> Option<string>)
    requires s.queue == [a, b] && !s.playing
    requires resolve(a).Some? && resolve(b).Some? && resolve(c.url).Some?
    ensures var o := Play(s, true, Some(c), resolve);
      o.state.queue == [b, c.url] && o.state.playing && o.state.current == Some(Song(TitleOf(resolve, a))) &&
      var (t, replies) := EndTracks(o.state, 3, resolve);
      replies == [NowPlaying(TitleOf(resolve, b)), NowPlaying(TitleOf(resolve, c.url)), Silent] &&
      t.queue == [] && !t.playing && t.current == Some(Song(TitleOf(resolve, c.url)))
  {
    var o := Play(s, true, Some(c), resolve);
    PlayWhenIdleStartsHead(s, c, resolve);
    assert o.state.queue == [b, c.url];
    var o1 := TrackEnd(o.state, resolve);
    assert o1.state.queue == [c.url];
    var o2 := TrackEnd(o1.state, resolve);
    assert o2.state.queue == [];
    var o3 := TrackEnd(o2.state, resolve);
    assert EndTracks(o3.state, 0, resolve) == (o3.state, []);
    assert [o3.reply] + [] == [o3.reply];
    assert EndTracks(o2.state, 1, resolve) == (o3.state, [o3.reply]);
    assert [o2.reply] + [o3.reply] == [o2.reply, o3.reply];
    assert EndTracks(o1.state, 2, resolve) == (o3.state, [o2.reply, o3.reply]);
    assert [o1.reply] + [o2.reply, o3.reply] == [o1.reply, o2.reply, o3.reply];
  }
}
