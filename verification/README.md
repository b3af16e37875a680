# GomuDiscordBot DJ queue and YouTube URL check, in Dafny

This project models the two pieces of logic in the Gomu Discord bot that are
more than glue code:

- **The DJ cog's playback queue** (`modules/DJ/main.py`). The `play`, `skip`
  and `stop` commands, the cog's `play_next`, and the audio-completion
  callback all act on the same state. That state is the process-wide
  `playlist_queue` (a FIFO list of canonical URLs), the cog's `current_song`,
  and the guild's voice client: whether there is one, whether it is playing,
  and whether the `after` hook of the source it last started is still to run
  (`armed`). Only a source that starts arms the hook; `skip` and `stop` stop
  output, which fires the hook, but do not disarm it. The completion callback
  is that hook firing, so without an armed hook it does not happen.
  - Module `Playback` (`playback.dfy`) gives each command as a pure step
    function from a `PlayerState` to an `Outcome`, which is the next state
    plus the reply the user sees. The lemmas state what the commands promise.
  - Module `DJMain` (`djmain.dfy`) has the cog as a class `DJ` whose methods
    update its fields in place. Each method is proved to compute exactly the
    matching step function, so every `Playback` lemma also holds of the object.
- **`is_valid_youtube_url`** (`utils/helpers.py`). Module `Helpers`
  (`helpers.dfy`) has a hand-written matcher, `IsValidYoutubeUrl`. It also
  has `Accepted`, a separate statement of what `re.match` of
  `(https?://)?(www\.)?(youtube\.com|youtu\.?be)/.+$` accepts: one of the
  spellings of the scheme, the subdomain and the host, then a slash, then a
  tail that `.+$` matches. In Python's `re`, `.` is any character except a
  newline, and `$` matches at the end of the string or just before a final
  newline. The function has no precondition, so it gives a Boolean for every
  string.

External calls become inputs:

- The yt_dlp search is an `Option<Track>`, holding the canonical URL and the
  title.
- The re-resolution of a queued URL is a function `Url -> Option<string>`.
  `None` means extraction raised.
- Whether the user is in a voice channel is a Boolean.
- The result of reading the settings file is an `Option<Config>`.

Starting audio output is taken to fail when the guild has no voice client
(calling `play` on `None`) or when audio is already playing (the voice
client refuses a second source). Both failures happen after the head has
been popped and `current_song` has been set.

Two consequences of the code, both proved:

- **`play` dequeues the head, not the new track.** When nothing is playing,
  `play` appends the found URL and then dequeues the head. With `[A, B]`
  queued and `play C`, A starts and the queue becomes `[B, C]`
  (`BacklogScenario`). The comment at main.py:86 ("If nothing is playing,
  start playing") might suggest that C starts at once; the code starts the
  head.
- **A failed re-resolution stalls the queue.** If re-resolving an entry fails
  inside the completion callback, that entry is lost and nothing starts
  playing. No hook is armed any more, so no number of further completion
  events, and no `skip`, moves the rest of the queue; it waits until the next
  `play` or `stop` (`FailedResolutionStallsQueue`). This is how a non-empty
  queue with nothing playing, such as the `[A, B]` above, comes about.

## Model

| member | source | states |
|---|---|---|
| Playback.PlayNext | modules/DJ/main.py:145-184 | `play_next` keeps the invariant (audio plays, and entries wait, only while there is a voice client; playing audio has its `after` hook armed) and never changes the voice connection |
| Playback.Play | modules/DJ/main.py:42-98 | the `play` command keeps the invariant: it joins the voice channel before it appends |
| Playback.Skip | modules/DJ/main.py:100-111 | `skip` keeps the invariant and never touches the queue, the current song or the armed hook |
| Playback.Stop | modules/DJ/main.py:113-138 | `stop` keeps the invariant and never clears the current song or disarms the hook |
| Playback.TrackEnd | modules/DJ/main.py:171-188 | the completion callback keeps the invariant; with no hook armed it does not happen (nothing changes, nothing is said); with a hook armed and output already stopped, its new state is exactly `play_next`'s, and so is its reply unless that is the error, which the callback swallows |
| Playback.PlayOutsideVoiceChannel | modules/DJ/main.py:47-52 | outside a voice channel `play` answers and changes nothing: queue, current song, connection and output stay as they were |
| Playback.PlayNotFoundKeepsQueue | modules/DJ/main.py:54-81 | a failed search appends nothing and leaves the current song, the output and the armed hook as they were: the whole new state is the old one with the voice channel joined |
| Playback.PlayWhilePlayingAppends | modules/DJ/main.py:84-92 | while audio plays, `play` appends exactly the found URL at the tail, replies "added" with the search title, and changes nothing else |
| Playback.PlayIgnoresMaxQueueSize | modules/DJ/main.py:84-92 | appending neither deduplicates nor checks the configured maximum: with a queue at or above the default limit of 50 that already holds the URL, the URL still goes to the tail. While audio plays the queue grows by one more copy of it; when idle the head is then dequeued as usual |
| Playback.PlayWhenIdleStartsHead | modules/DJ/main.py:84-88 | when idle, `play` appends and then dequeues the head. The found track starts only when the queue was empty; otherwise the old head starts (arming its hook) and the new URL waits at the tail. A head that does not resolve is lost, nothing plays, the armed hook is as it was, and the reply is the error |
| Playback.PlayNextOnEmptyQueue | modules/DJ/main.py:149 | `play_next` on an empty queue changes nothing and says nothing; in particular `current_song` is never cleared |
| Playback.PlayNextPopsHead | modules/DJ/main.py:149-166 | on any non-empty queue, `play_next` removes exactly the head and keeps the rest in order. A head that does not resolve is lost and nothing else changes; one that resolves becomes `current_song`, and then either starts playing with its hook armed and is announced (voice client present, nothing playing) or the start fails with the error |
| Playback.FailedResolutionStallsQueue | modules/DJ/main.py:150-175 | when the head no longer resolves, the callback drops it, starts nothing, says nothing and leaves no hook armed; after that, any number of further completion events leaves the state unchanged and `skip` finds nothing to skip, so the remaining entries stay queued |
| Playback.EndTracksWithoutHook | modules/DJ/main.py:166-175 | completion events come only from an armed hook: without one, any number of them leaves the state as it is and says nothing |
| Playback.SkipWhenIdle | modules/DJ/main.py:103-111 | with no voice client, or nothing playing, `skip` replies "nothing to skip" and changes nothing |
| Playback.SkipAdvancesThroughCallback | modules/DJ/main.py:103-107 | `skip` only stops output and leaves the hook armed. The advance is made by the completion callback, and it is the same advance a natural end of the track makes |
| Playback.StopThenCallbackStaysIdle | modules/DJ/main.py:121-130 | with a voice connection, `stop` empties the queue before output stops. The callback this triggers, if a hook is armed, finds nothing, so the bot ends idle and disconnected, with an empty queue, no hook armed and the last title still current |
| Playback.StopWithoutConnection | modules/DJ/main.py:135-138 | without a voice connection, `stop` leaves everything as it is |
| Playback.EndTracksConsumesPrefix | modules/DJ/main.py:149-150 | with a voice connection and a hook armed, each completion event consumes exactly one entry, the last one resolved or not: after n events whose first n - 1 entries resolve, the queue is its own suffix from n, and there were n replies |
| Playback.EndTracksPlaysInOrder | modules/DJ/main.py:145-175 | first in, first out: with a voice connection, a hook armed and every entry resolving, n completion events announce the first n queued entries in queue order, each once, and leave the n-th playing with its hook armed |
| Playback.BacklogScenario | modules/DJ/main.py:84-88 | `[A, B]` queued, idle, `play C`: A plays and the queue is `[B, C]`. Three completions then announce B, then C, then nothing, leaving the bot idle with C as the current song |
| DJMain.DJ.constructor | modules/DJ/main.py:12-40 | a new cog starts from the module's initial empty `playlist_queue` (bound at line 12, not by `__init__`), no current song, no voice connection and no hook armed; its settings are the loaded ones, or the defaults (50, 5, `["youtube"]`) when loading failed |
| DJMain.DJ.PlayNext | modules/DJ/main.py:145-184 | updating the fields in place yields exactly `Playback.PlayNext` of the old state, and keeps the invariant |
| DJMain.DJ.Play | modules/DJ/main.py:42-98 | yields exactly `Playback.Play` of the old state and the inputs, and keeps the invariant |
| DJMain.DJ.Skip | modules/DJ/main.py:100-111 | yields exactly `Playback.Skip` of the old state, and keeps the invariant |
| DJMain.DJ.Stop | modules/DJ/main.py:113-143 | yields exactly `Playback.Stop` of the old state, and keeps the invariant |
| DJMain.DJ.OnTrackEnd | modules/DJ/main.py:186-188 | the completion callback yields exactly `Playback.TrackEnd` of the old state, and keeps the invariant |
| DJMain.SkipAndStopSession | modules/DJ/main.py:100-138 | from the method contracts alone, a caller can derive a whole session: `[A, B]` idle, `play C`, `skip`, callback, `stop`, callback. The replies are "now playing A", "skipped", "now playing B", "stopped" and silence, and the bot ends idle and disconnected with no hook armed and B current |
| Helpers.MatchDotsToEndMeaning | utils/helpers.py:5 | the scan for `.*$` accepts exactly the newline-free strings, with or without one final newline |
| Helpers.MatchTailMeaning | utils/helpers.py:5 | the matcher for `.+$` agrees with its meaning: at least one non-newline character, then the end or a final newline |
| Helpers.IsValidYoutubeUrlSound | utils/helpers.py:5-6 | every string the matcher accepts is spelled as scheme, subdomain, host, slash and a `.+$` tail |
| Helpers.IsValidYoutubeUrlComplete | utils/helpers.py:5-6 | every string so spelled is accepted: backtracking into another choice for an optional group never finds a match that the left-to-right choice misses |
| Helpers.IsValidYoutubeUrlMeaning | utils/helpers.py:3-6 | `is_valid_youtube_url(url)` holds if and only if the pattern, anchored at the first character, matches `url` |
| Helpers.RejectsOtherFirstCharacter | utils/helpers.py:5-6 | the match is anchored at the start: the empty string, and every string not starting with `h`, `w` or `y`, is rejected |
| Helpers.RejectsOtherSpellings | utils/helpers.py:5-6 | case and anchoring: `YouTube.com/x`, `HTTPS://youtube.com/x`, `https://YouTube.com/x`, `ftp://youtube.com/x`, ` youtube.com/x` and `m.youtube.com/x` are rejected |
| Helpers.RejectsEmptyPath | utils/helpers.py:5 | at least one character must follow the slash: every scheme, subdomain and host spelling is rejected alone, with a bare slash, and with a slash and a newline |
| Helpers.AcceptsNewlineFreePath | utils/helpers.py:5 | after every spelling and a slash, any non-empty newline-free path is accepted, with or without one final newline |
| Helpers.RejectsInnerNewline | utils/helpers.py:5 | a newline in the path other than a single final one causes rejection |
| Helpers.AcceptsBareHost | utils/helpers.py:5 | `youtube/x` is accepted: the bare host `youtube` counts, because the dot in `youtu\.?be` is optional |
| Helpers.RejectsLongerHost | utils/helpers.py:5 | the host must be followed by the slash at once: `youtube.com.` followed by anything (such as `youtube.com.evil.com/x`) is rejected after every scheme and subdomain |
| Helpers.AcceptsDotAfterSlash | utils/helpers.py:5 | after the slash anything goes: `youtube.com/.` followed by any newline-free text (such as `youtube.com/.evil`) is accepted |

## Left out

- `gomu.py` is not part of this model. It covers module discovery, dynamic import, command-tree sync and `bot.run`: platform plumbing with no queue logic.
- yt_dlp extraction, FFmpeg output and its reconnect options are inputs (`found`, `resolve`), not modelled. Whether a search picks `entries[0]` is folded into `found`.
- The thread hop through `asyncio.run_coroutine_threadsafe` is not modelled. The completion callback is one sequential event (`TrackEnd`/`OnTrackEnd`), so no interleaving with concurrent commands is considered.
- `Playback.TrackEnd` assumes the callback runs before any later command, and `armed` records at most one pending hook. In the code, a callback delayed past a new `play` (the event loop is blocked by the synchronous `extract_info`) meets "already playing" at main.py:166, loses the popped head and leaves `current_song` naming a track that is not playing; the model instead lets the order skip, play, callback start a second track.
- `Playback.EndTracksConsumesPrefix` no longer promises that every event consumes an entry: once a re-resolution fails no hook is armed, so it needs the entries before the last one to resolve.
- `DJMain.DJ.constructor` models one cog per process. In the code the queue belongs to the module, so a second `DJ(bot)` would see the entries left by the first.
- Reading `config.json` is an input to the constructor. Nothing in the commands reads the settings, and `PlayIgnoresMaxQueueSize` states that.
- The Genius client is only constructed. The code has no lyrics command, title normalisation or lyrics formatting, and no `pause` command, so none is modelled.
- Message text, emoji, deferral, the `NotFound` fallback to a channel message, and the connect/disconnect calls are not modelled. Only which reply is sent, and whether a voice client exists, are kept.
- `DJMain.DJ.PlayNext` records the title as a string. The code's `info.get('title')` can be `None`, which the model does not represent.
- Voice connections lost other than through `stop`, and exceptions from connecting to a channel, are not modelled.
- The global queue is shared by every guild. The model has one cog, so it does not show two guilds sharing one queue.
