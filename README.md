# PlayerInfo of the VRT NU Kodi add-on, in Dafny

`PlayerInfo` observes Kodi's playback events. The observer works as follows:

- It listens only to playback of the add-on's own `plugin://plugin.video.vrt.nu/` paths.
- It remembers the episode being played (asset id, title, url, episode label, what's-on id).
- While Kodi plays, a position thread samples the playback position.
- It pushes resume points (`position`, `total`) to the VRT NU resume-point service.
- When playback has really stopped, it reloads Kodi's container if the add-on's idea of "watched" must overrule Kodi's.

That last decision is `overrule_kodi_watchstatus`. It compares the position with a start band and an end band. The bands are built from the add-on's margin (SECONDS_MARGIN) and Kodi's advanced settings `ignoresecondsatstart` (default 180) and `ignorepercentatend` (default 8).

The project has three files:

- `wrappers.dfy`: `Option`, which stands for Python's `None`.
- `watchstatus.dfy` (module `Watchstatus`): the pure decision `Overrule`. It rounds half to even, as Python 3's `round` does. The three margins are a `Margins` parameter.
- `player.dfy` (module `Player`): the class `PlayerInfo`, whose methods are the event handlers, plus the pure functions that specify them:
  - `PushActions`: what `push_position` emits.
  - `UpNextChoice`: queue or play in `add_upnext`.
  - `SampleRun`: the polling loop of `stream_position`.

The host and the outside world are modelled like this:

- Kodi's answers (`getTime`, `getTotalTime`, `isPlaying`) are method parameters. A query that raised `RuntimeError` is `None`.
- The episode lookup is a parameter, and so are `assetpath_to_id` and `url_to_episode`, which are given as functions.
- Everything PlayerInfo asks of the outside world is appended to the ghost log `emitted`. This covers resume-point updates, container reloads, stop, playlist add, play, the Up Next broadcast and starting the position thread.
- Python 3 raises `TypeError` when `None` takes part in arithmetic or a comparison, for example a push before any position or total is known. A handler that hits this stops where Python would stop and returns `ok == false`. Updates made before that point stay.
- `stream_position` runs over a finite sequence of `Tick`s. Each tick holds Kodi's answers for one round: `isPlaying`, `getTime`, and whether another handler set the quit Event during the 0.2 s wait.

Behaviour of the code worth knowing:

- `onPlayBackStarted` does not reset a session. It clears neither `quit` nor `paused`, nor the position or total. When the lookup finds no episode (a live stream), the previous episode's `asset_id`, `title`, `url`, `ep_id` and `whatson_id` stay in place (resources/lib/playerinfo.py:60-61). Only `onAVStarted` clears `quit`.
- `push_position` reloads the container when the path is an Up Next path OR the overrule test holds, and only if Kodi is not playing and quit is set.
- `onAVStarted` pushes the defaults of `push_position`, position 0 and total 100, not the sampled values.
- Take a margin of 5 seconds, a 1000-second programme and Kodi's defaults. The start band is then [5, 180], so `overrule(100, 1000)` is true. `Watchstatus.OverruleWithDefaults` states this and the other boundary values.

## Model

| member | source | states |
|---|---|---|
| `Watchstatus.Overrule` | resources/lib/playerinfo.py:231-261 | the nested guarded checks are equivalent to: the position lies in the closed band between SECONDS_MARGIN and ignoresecondsatstart, or in the closed band between total − SECONDS_MARGIN and the rounded end margin; the outer one-sided guards are redundant |
| `Watchstatus.OverruleGap` | resources/lib/playerinfo.py:247-261 | any position strictly above both start bounds and strictly below both end bounds is never overruled |
| `Watchstatus.OverruleBoundsInclusive` | resources/lib/playerinfo.py:249-259 | all four bounds belong to their band (both bands are inclusive) |
| `Watchstatus.OverruleWithDefaults` | resources/lib/playerinfo.py:241-261 | with defaults 180 s / 8 % and a 5 s margin on a 1000 s programme the end margin is 920, so 5, 100, 920 and 995 overrule and 180.5, 500, 919 and 995.5 do not |
| `Watchstatus.RoundHalfEven` | resources/lib/playerinfo.py:245 | the result is within one half of the input, and exactly at a tie it is even (Python 3 `round`) |
| `Watchstatus.RoundTies` | resources/lib/playerinfo.py:245 | 0.5 and −0.5 round to 0, 1.5 and 2.5 to 2, 2.4 to 2 and 2.6 to 3; a 12.5-second programme at 8 % has end margin 12 (exact value 11.5) |
| `Watchstatus.IgnoreSecondsAtEnd` | resources/lib/playerinfo.py:244-245 | the end margin in seconds is within one half of total·(100 − percent)/100, and is even when the exact value lies halfway between two integers (Python 3 `round`) |
| `Player.ThuisScenario` | resources/lib/playerinfo.py:63-67 | an episode of "Thuis", season 14 episode 3, with no what's-on id yields title "Thuis", label "S14E3", no what's-on id, and a push that is not a no-op once the asset path maps to an asset id |
| `Player.TotalAfter` | resources/lib/playerinfo.py:193-201 | the total only changes to a positive reading; a zero reading or a failed query keeps it; a total that is unset or positive stays unset or positive |
| `Player.PushActions` | resources/lib/playerinfo.py:203-229 | without an asset id nothing is emitted; otherwise exactly one resume-point update with (asset_id, title, url, position, total, whatson_id) is emitted first, followed by a container reload exactly when (Up Next path or overrule) and not playing and quit; the push raises only off the Up Next path with a missing position or total (or with no path) |
| `Player.NoReloadBeforeQuit` | resources/lib/playerinfo.py:225-229 | a push made while quit is clear (as in onAVStarted) never reloads the container |
| `Player.UpNextChoice` | resources/lib/playerinfo.py:156-166 | the Up Next URL is added to the playlist exactly when Kodi plays and total − position < 1, played exactly when Kodi does not play or at least a second is left, and the subtraction raises exactly when Kodi plays and position or total is missing |
| `Player.SampleRun` | resources/lib/playerinfo.py:148-154 | the polling loop stops at the first round in which playback stopped or the quit signal woke the wait (immediately if quit was already set), samples one position in every round it goes through, none in a round that ends because playback stopped or quit was already set, and sets quit only through the wait |
| `Player.SampleRunPosition` | resources/lib/playerinfo.py:150-151 | the position a polling run leaves is that obtained by applying its sampling rounds' getTime readings in order |
| `Player.SampledIsReading` | resources/lib/playerinfo.py:186-191 | repeated position updates leave either the old position or one of the readings |
| `Player.PlayerInfo.constructor` | resources/lib/playerinfo.py:20-40 | a new player is not listening, not paused, has no position, total, thread, quit signal or episode fields, and has emitted nothing |
| `Player.PlayerInfo.OnPlayBackStarted` | resources/lib/playerinfo.py:42-67 | records the path; listens exactly when the path starts with `plugin://plugin.video.vrt.nu/`; takes the episode fields from a found episode, and otherwise keeps the previous ones; resets nothing else |
| `Player.PlayerInfo.OnAVStarted` | resources/lib/playerinfo.py:69-84 | while not listening changes nothing; otherwise clears quit, samples position and total, pushes position 0 and total 100, broadcasts Up Next, and starts a position thread only when none exists |
| `Player.PlayerInfo.OnPlayBackSeek` | resources/lib/playerinfo.py:89-99 | while not listening changes nothing; otherwise the position becomes time // 1000, and quit is set and a stop requested exactly when that is at or beyond the total; with no total it raises after the position update |
| `Player.PlayerInfo.OnPlayBackPaused` | resources/lib/playerinfo.py:101-108 | while not listening changes nothing; otherwise samples the position, pushes (position, total), then sets paused unless the push raised |
| `Player.PlayerInfo.OnPlayBackResumed` | resources/lib/playerinfo.py:110-118 | while not listening changes nothing; otherwise pushes (position, total) only when not paused, and leaves paused false |
| `Player.PlayerInfo.OnPlayBackEnded` | resources/lib/playerinfo.py:120-126 | while not listening changes nothing; otherwise sets quit and sets the position to the total |
| `Player.PlayerInfo.OnPlayBackError` | resources/lib/playerinfo.py:128-133 | sets quit when listening, and changes nothing else |
| `Player.PlayerInfo.OnPlayBackStopped` | resources/lib/playerinfo.py:135-140 | sets quit when listening, and changes nothing else |
| `Player.PlayerInfo.OnThreadExit` | resources/lib/playerinfo.py:142-146 | forgets the position thread and pushes (position, total), whether or not the player listens |
| `Player.PlayerInfo.StreamPosition` | resources/lib/playerinfo.py:148-154 | leaves position and quit as SampleRun says; when the loop has ended, onThreadExit has run exactly once (thread forgotten, one push); while it is still polling nothing is emitted |
| `Player.PlayerInfo.PollWhilePlaying` | resources/lib/playerinfo.py:150-153 | the while loop updates the position and quit flag in place exactly as SampleRun specifies |
| `Player.PlayerInfo.AddUpNext` | resources/lib/playerinfo.py:156-166 | samples position and total, then emits the playlist add or the play request that UpNextChoice picks for `plugin://plugin.video.vrt.nu/play/upnext/<video_id>`, or nothing when it raises |
| `Player.PlayerInfo.UpdatePosition` | resources/lib/playerinfo.py:186-191 | a successful getTime replaces the position; a failed one keeps it |
| `Player.PlayerInfo.UpdateTotal` | resources/lib/playerinfo.py:193-201 | the total changes only to a positive reading, and stays unset or positive |
| `Player.PlayerInfo.PushPosition` | resources/lib/playerinfo.py:203-229 | emits exactly what PushActions gives for the current episode, path and quit flag |

## Left out

- Threads and timing: `threading.Thread`, `Event.wait(timeout=0.2)`, and the race between the position thread and Kodi's callbacks. `quit` is a boolean. The poller is a sequential loop over Kodi's answers. A handler that sets quit during the wait appears only as the tick's `woken` flag.
- `push_upnext` (resources/lib/playerinfo.py:168-184) is one opaque `PushUpNext` action. Its guards (`has_addon`, the `useupnext` setting, `isPlaying`), the video info tag, `get_upnext`, and the JSON/base64 `notify` payload are not modelled.
- `onAVChange` has an empty body in the source, so there is nothing to model.
- `ResumePoints.update`, `ApiHelper.get_single_episode_data`, `play_url_to_id`, `assetpath_to_id`, `url_to_episode` and `get_advanced_setting_int` are not part of this model. Their results are parameters.
- The value of SECONDS_MARGIN is not part of this model. It is a parameter of `Margins`.
- The advanced settings are read on every call in the source. In the model they are fixed when the player is constructed.
- Episode records: every key `Player.Episode` reads is a string that is present. The model cannot express a record without 'program' (the source then sets the title to None, resources/lib/playerinfo.py:64) or without 'assetPath' (`assetpath_to_id` then receives None, :63). A missing 'whatsonId' is the empty string.
- Floating point: positions and totals are exact reals, and `round` is exact half-to-even on them. Binary rounding error is not modelled.
- Python 2 semantics are not modelled. In Python 2, `round` rounds ties away from zero and `None` compares below every number.
- Logging and the random `thread_id` (resources/lib/playerinfo.py:37-39) are diagnostics only.
- Player.PlayerInfo.StreamPosition: when the ticks run out before the loop ends, the model stops there with `exited == false`. The real thread would go on polling.
