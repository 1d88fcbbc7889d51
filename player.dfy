/** PlayerInfo, the observer of Kodi's playback events in the VRT NU add-on:
    it tracks the episode being played, samples the playback position while
    playing, and pushes resume points to the VRT NU resume-point service.

    Kodi's queries (getTime, getTotalTime, isPlaying) and the episode lookup
    are method parameters. A failed getTime or getTotalTime (a RuntimeError in
    Kodi) is `None`. What PlayerInfo asks of the outside world (a resume-point
    update, a container reload, a stop, a playlist entry, a play request, an
    Up Next broadcast, a new position thread) is appended to the ghost log
    `emitted`. A handler that raises a TypeError (Python 3 arithmetic or
    comparison on `None`) stops where Python would and reports `ok == false`. */
module Player {

  import opened Wrappers
  import opened Watchstatus

  /** Paths of this add-on's own playback URLs. */
  const PluginPrefix: string := "plugin://plugin.video.vrt.nu/"
  const UpNextPathPrefix: string := "plugin://plugin.video.vrt.nu/play/upnext"
  const UpNextUrlPrefix: string := "plugin://plugin.video.vrt.nu/play/upnext/"

  /** What PlayerInfo asks of Kodi and of the resume-point service. */
  datatype Action =
    | UpdateResumePoint(assetId: string, title: Option<string>, url: Option<string>,
                        position: Option<real>, total: Option<real>, whatsonId: Option<string>)
    | ReloadContainer
    | StopPlayer
    | PushUpNext
    | StartPositionThread
    | AddToPlaylist(playlistUrl: string)
    | Play(playUrl: string)

  /** The fields of an episode record from the VRT NU API that PlayerInfo reads;
      a missing `whatsonId` is the empty string. */
  datatype Episode = Episode(assetPath: string, program: string, url: string,
                             seasonTitle: string, episodeNumber: string, whatsonId: string)

  /** The episode fields PlayerInfo keeps: asset_id, title, url, ep_id, whatson_id. */
  datatype ResumeInfo = ResumeInfo(assetId: Option<string>, title: Option<string>, url: Option<string>,
                                   epId: Option<string>, whatsonId: Option<string>)

  /** The outcome of a resume-point push: what it emitted, and whether it
      returned normally (false: it raised before finishing). */
  datatype Pushed = Pushed(actions: seq<Action>, completed: bool)

  /** One round of the position-polling loop as Kodi answers it: isPlaying() at
      the loop test, getTime() (None: it raised), and whether the quit signal
      was set by another handler during the 0.2 second wait. */
  datatype Tick = Tick(playing: bool, time: Option<real>, woken: bool)

  /** Where a polling run leaves the player: the position and quit flag, how
      many ticks it consumed, how many of them sampled the position, and
      whether the loop ended (false: the ticks ran out first). */
  datatype Sampling = Sampling(lastPos: Option<real>, quit: bool, used: nat, sampled: nat, exited: bool)

  /** Python's truth value of `asset_id`: neither None nor empty. */
  predicate HasAsset(assetId: Option<string>)
  {
    assetId.Some? && assetId.value != ""
  }

  /** The total is either unknown or a positive duration. */
  predicate PositiveOrUnset(total: Option<real>)
  {
    total.None? || total.value > 0.0
  }

  /** The episode fields onPlayBackStarted derives from a looked-up episode;
      assetpath_to_id and url_to_episode are the given functions. */
  function ResumeFrom(e: Episode, assetPathToId: string -> Option<string>, urlToEpisode: string -> string): ResumeInfo
  {
    ResumeInfo(assetPathToId(e.assetPath), Some(e.program), Some(urlToEpisode(e.url)),
               Some("S" + e.seasonTitle + "E" + e.episodeNumber),
               if e.whatsonId != "" then Some(e.whatsonId) else None)
  }

  /** update_position: a successful reading replaces the position, a failed one keeps it. */
  function PositionAfter(previous: Option<real>, reading: Option<real>): Option<real>
  {
    if reading.Some? then reading else previous
  }

  /** update_total: only a positive reading replaces the total. */
  function TotalAfter(previous: Option<real>, reading: Option<real>): (r: Option<real>)
    ensures r == previous || r == reading
    ensures reading.Some? && reading.value > 0.0 ==> r == reading
    ensures reading.None? ==> r == previous
    ensures PositiveOrUnset(previous) ==> PositiveOrUnset(r)
  {
    if reading.Some? && reading.value > 0.0 then reading else previous
  }

  /** The single condition under which push_position reloads the container. */
  predicate ReloadWanted(path: string, position: Option<real>, total: Option<real>,
                         playing: bool, quit: bool, m: Margins)
  {
    && (UpNextPathPrefix <= path || (position.Some? && total.Some? && Overrule(position.value, total.value, m)))
    && !playing
    && quit
  }

  /** push_position, in the source's order of early returns. The overrule test
      is evaluated only off the Up Next path; there a `None` position or total
      raises a TypeError, and a `None` path an AttributeError. */
  function PushActions(info: ResumeInfo, path: Option<string>, position: Option<real>, total: Option<real>,
                       playing: bool, quit: bool, m: Margins): (r: Pushed)
    ensures !HasAsset(info.assetId) ==> r == Pushed([], true)
    ensures HasAsset(info.assetId) ==>
              && 1 <= |r.actions| <= 2
              && r.actions[0] == UpdateResumePoint(info.assetId.value, info.title, info.url, position, total, info.whatsonId)
              && (ReloadContainer in r.actions <==> path.Some? && ReloadWanted(path.value, position, total, playing, quit, m))
              && (|r.actions| == 2 ==> r.actions[1] == ReloadContainer)
    ensures r.completed <==>
              !HasAsset(info.assetId) ||
              (path.Some? && (UpNextPathPrefix <= path.value || (position.Some? && total.Some?)))
  {
    if !HasAsset(info.assetId) then Pushed([], true)
    else
      var update := UpdateResumePoint(info.assetId.value, info.title, info.url, position, total, info.whatsonId);
      if path.None? then Pushed([update], false)
      else if !(UpNextPathPrefix <= path.value) && (position.None? || total.None?) then Pushed([update], false)
      else if !(UpNextPathPrefix <= path.value) && !Overrule(position.value, total.value, m) then Pushed([update], true)
      else if playing || !quit then Pushed([update], true)
      else Pushed([update, ReloadContainer], true)
  }

  /** A push made with the quit signal clear never reloads the container. */
  lemma NoReloadBeforeQuit(info: ResumeInfo, path: Option<string>, position: Option<real>, total: Option<real>,
                           playing: bool, m: Margins)
    ensures ReloadContainer !in PushActions(info, path, position, total, playing, false, m).actions
  {
  }

  /** An episode of "Thuis", season 14 episode 3, with no what's-on id: the
      player keeps title "Thuis" and episode label "S14E3", and, once its asset
      path maps to an asset id, a push is no longer a no-op. */
  lemma ThuisScenario(assetPathToId: string -> Option<string>, urlToEpisode: string -> string,
                      path: Option<string>, position: Option<real>, total: Option<real>,
                      playing: bool, quit: bool, m: Margins)
    requires HasAsset(assetPathToId("/x/y"))
    ensures var info := ResumeFrom(Episode("/x/y", "Thuis", "", "14", "3", ""), assetPathToId, urlToEpisode);
            && info.title == Some("Thuis") && info.epId == Some("S14E3") && info.whatsonId.None?
            && PushActions(info, path, position, total, playing, quit, m).actions != []
  {
    assert "S" + "14" + "E" + "3" == "S14E3";
  }

  /** add_upnext's choice: queue the Up Next URL when Kodi is playing and less
      than a second is left, otherwise play it now; `None` when the subtraction
      meets a `None` and raises a TypeError. */
  function UpNextChoice(url: string, playing: bool, lastPos: Option<real>, total: Option<real>): (r: Option<Action>)
    ensures r == Some(AddToPlaylist(url)) <==>
              playing && lastPos.Some? && total.Some? && total.value - lastPos.value < 1.0
    ensures r == Some(Play(url)) <==>
              !playing || (lastPos.Some? && total.Some? && total.value - lastPos.value >= 1.0)
    ensures r.None? <==> playing && (lastPos.None? || total.None?)
  {
    if !playing then Some(Play(url))
    else if lastPos.None? || total.None? then None
    else if total.value - lastPos.value < 1.0 then Some(AddToPlaylist(url))
    else Some(Play(url))
  }

  /** A tick ends the polling loop after the first one: playback stopped, or
      the wait was woken by the quit signal. */
  predicate Ends(t: Tick)
  {
    !t.playing || t.woken
  }

  /** stream_position as a function of Kodi's answers: each round tests
      isPlaying() and the quit flag, samples the position, and waits; the loop
      ends at the first round where playback stopped, quit was already set, or
      the wait was woken. */
  function SampleRun(ticks: seq<Tick>, lastPos: Option<real>, quit: bool): (r: Sampling)
    ensures r.used <= |ticks| && r.sampled <= r.used && r.used <= r.sampled + 1
    ensures quit && |ticks| > 0 ==> r == Sampling(lastPos, true, 1, 0, true)
    ensures !quit ==> (r.exited <==> exists i :: 0 <= i < |ticks| && Ends(ticks[i]))
    ensures !quit ==> forall i :: 0 <= i < r.used - 1 ==> !Ends(ticks[i])
    ensures !quit && r.exited ==> r.used > 0 && Ends(ticks[r.used - 1])
    ensures !r.exited ==> r.used == |ticks| && r.sampled == |ticks| && r.quit == quit
    ensures r.exited ==> r.sampled == (if !quit && ticks[r.used - 1].playing then r.used else r.used - 1)
    ensures r.quit <==> quit || (r.exited && ticks[r.used - 1].playing && ticks[r.used - 1].woken)
    decreases |ticks|
  {
    if |ticks| == 0 then Sampling(lastPos, quit, 0, 0, false)
    else if !ticks[0].playing || quit then Sampling(lastPos, quit, 1, 0, true)
    else
      var pos := PositionAfter(lastPos, ticks[0].time);
      if ticks[0].woken then Sampling(pos, true, 1, 1, true)
      else
        var rest := SampleRun(ticks[1..], pos, quit);
        rest.(used := rest.used + 1, sampled := rest.sampled + 1)
  }

  /** The position after sampling every tick in order. */
  function Sampled(ticks: seq<Tick>, lastPos: Option<real>): Option<real>
    decreases |ticks|
  {
    if |ticks| == 0 then lastPos else Sampled(ticks[1..], PositionAfter(lastPos, ticks[0].time))
  }

  /** The position a polling run leaves is the one its sampling rounds read:
      the latest successful getTime among them, or the old position if none
      succeeded. */
  lemma {:induction false} SampleRunPosition(ticks: seq<Tick>, lastPos: Option<real>, quit: bool)
    ensures SampleRun(ticks, lastPos, quit).lastPos == Sampled(ticks[..SampleRun(ticks, lastPos, quit).sampled], lastPos)
    decreases |ticks|
  {
    var r := SampleRun(ticks, lastPos, quit);
    if |ticks| == 0 || !ticks[0].playing || quit {
      assert ticks[..r.sampled] == [];
    } else {
      var pos := PositionAfter(lastPos, ticks[0].time);
      if ticks[0].woken {
        assert ticks[..1][1..] == [];
      } else {
        var rest := SampleRun(ticks[1..], pos, quit);
        SampleRunPosition(ticks[1..], pos, quit);
        assert ticks[..rest.sampled + 1][1..] == ticks[1..][..rest.sampled];
      }
    }
  }

  /** Sampling a run's ticks only ever yields the old position or a reading. */
  lemma {:induction false} SampledIsReading(ticks: seq<Tick>, lastPos: Option<real>)
    ensures Sampled(ticks, lastPos) == lastPos ||
            exists i :: 0 <= i < |ticks| && ticks[i].time == Sampled(ticks, lastPos)
    decreases |ticks|
  {
    if |ticks| > 0 {
      var pos := PositionAfter(lastPos, ticks[0].time);
      SampledIsReading(ticks[1..], pos);
      if Sampled(ticks, lastPos) != pos {
        var i :| 0 <= i < |ticks[1..]| && ticks[1..][i].time == Sampled(ticks[1..], pos);
        assert ticks[i + 1].time == Sampled(ticks, lastPos);
      }
    }
  }

  /** PlayerInfo's state. `positionThread` says whether a position thread exists;
      `quit` is the threading Event the thread waits on. */
  class PlayerInfo {
    const margins: Margins
    var lastPos: Option<real>
    var listen: bool
    var paused: bool
    var total: Option<real>
    var positionThread: bool
    var quit: bool
    var assetId: Option<string>
    var path: Option<string>
    var title: Option<string>
    var epId: Option<string>
    var url: Option<string>
    var whatsonId: Option<string>
    ghost var emitted: seq<Action>

    /** The known total is positive, and a listening player has a path. */
    ghost predicate Valid()
      reads this
    {
      PositiveOrUnset(total) && (listen ==> path.Some?)
    }

    function Resume(): ResumeInfo
      reads this
    {
      ResumeInfo(assetId, title, url, epId, whatsonId)
    }

    constructor (margins: Margins)
      ensures Valid()
      ensures this.margins == margins
      ensures lastPos.None? && total.None? && !listen && !paused && !positionThread && !quit
      ensures Resume() == ResumeInfo(None, None, None, None, None) && path.None?
      ensures emitted == []
    {
      this.margins := margins;
      lastPos, listen, paused, total := None, false, false, None;
      positionThread, quit := false, false;
      assetId, path, title, epId, url, whatsonId := None, None, None, None, None, None;
      emitted := [];
    }

    /** onPlayBackStarted: listen to this add-on's paths only; take the episode
        fields from the lookup when it found an episode, and otherwise (a live
        stream) keep the previous episode's fields. Nothing else is reset. */
    method OnPlayBackStarted(playingPath: string, episode: Option<Episode>,
                             assetPathToId: string -> Option<string>, urlToEpisode: string -> string)
      requires Valid()
      modifies this
      ensures Valid()
      ensures path == Some(playingPath)
      ensures listen <==> PluginPrefix <= playingPath
      ensures listen && episode.Some? ==> Resume() == ResumeFrom(episode.value, assetPathToId, urlToEpisode)
      ensures !listen || episode.None? ==> Resume() == old(Resume())
      ensures lastPos == old(lastPos) && total == old(total) && paused == old(paused)
      ensures quit == old(quit) && positionThread == old(positionThread) && emitted == old(emitted)
    {
      path := Some(playingPath);
      if PluginPrefix <= playingPath {
        listen := true;
      } else {
        listen := false;
        return;
      }
      if episode.None? {
        return;
      }
      var e := episode.value;
      assetId := assetPathToId(e.assetPath);
      title := Some(e.program);
      url := Some(urlToEpisode(e.url));
      epId := Some("S" + e.seasonTitle + "E" + e.episodeNumber);
      whatsonId := if e.whatsonId != "" then Some(e.whatsonId) else None;
    }

    /** onAVStarted: clear quit, sample position and total, push the default
        resume point (position 0, total 100), hand over to Up Next, and start a
        position thread only if there is none. */
    method OnAVStarted(time: Option<real>, totalTime: Option<real>, playing: bool)
      requires Valid()
      modifies this
      ensures Valid()
      ensures !old(listen) ==> unchanged(this)
      ensures old(listen) ==>
                && !quit
                && lastPos == PositionAfter(old(lastPos), time)
                && total == TotalAfter(old(total), totalTime)
                && positionThread
                && emitted == old(emitted)
                              + PushActions(Resume(), path, Some(0.0), Some(100.0), playing, false, margins).actions
                              + [PushUpNext]
                              + (if old(positionThread) then [] else [StartPositionThread])
      ensures listen == old(listen) && paused == old(paused) && path == old(path) && Resume() == old(Resume())
    {
      if !listen {
        return;
      }
      quit := false;
      UpdatePosition(time);
      UpdateTotal(totalTime);
      var _ := PushPosition(Some(0.0), Some(100.0), playing);
      emitted := emitted + [PushUpNext];
      if !positionThread {
        positionThread := true;
        emitted := emitted + [StartPositionThread];
      }
    }

    /** onPlayBackSeek: the position becomes the seek time in whole seconds;
        seeking to or past the total sets quit and stops the player. With no
        total known the comparison raises. */
    method OnPlayBackSeek(time: int, seekOffset: int) returns (ok: bool)
      requires Valid()
      modifies this
      ensures Valid()
      ensures !old(listen) ==> unchanged(this) && ok
      // Python's // floors; Dafny's / on int agrees with it for the positive divisor 1000.
      ensures old(listen) ==>
                && lastPos == Some((time / 1000) as real)
                && ok == total.Some?
                && var beyond := total.Some? && (time / 1000) as real >= total.value;
                   quit == (old(quit) || beyond) && emitted == old(emitted) + (if beyond then [StopPlayer] else [])
      ensures listen == old(listen) && paused == old(paused) && total == old(total)
      ensures positionThread == old(positionThread) && path == old(path) && Resume() == old(Resume())
    {
      ok := true;
      if !listen {
        return;
      }
      lastPos := Some((time / 1000) as real);
      if total.None? {
        ok := false;
        return;
      }
      if lastPos.value >= total.value {
        quit := true;
        emitted := emitted + [StopPlayer];
      }
    }

    /** onPlayBackPaused: sample the position, push it, then mark paused (not
        reached when the push raised). */
    method OnPlayBackPaused(time: Option<real>, playing: bool) returns (ok: bool)
      requires Valid()
      modifies this
      ensures Valid()
      ensures !old(listen) ==> unchanged(this) && ok
      ensures old(listen) ==>
                && lastPos == PositionAfter(old(lastPos), time)
                && (var p := PushActions(Resume(), path, lastPos, total, playing, quit, margins);
                    emitted == old(emitted) + p.actions && ok == p.completed)
                && paused == (ok || old(paused))
      ensures listen == old(listen) && total == old(total) && quit == old(quit)
      ensures positionThread == old(positionThread) && path == old(path) && Resume() == old(Resume())
    {
      ok := true;
      if !listen {
        return;
      }
      UpdatePosition(time);
      ok := PushPosition(lastPos, total, playing);
      if !ok {
        return;
      }
      paused := true;
    }

    /** onPlayBackResumed: a resume that follows a playlist change rather than
        a pause pushes the position; either way paused ends up false. */
    method OnPlayBackResumed(playing: bool) returns (ok: bool)
      requires Valid()
      modifies this
      ensures Valid()
      ensures !old(listen) ==> unchanged(this) && ok
      ensures old(listen) ==>
                && !paused
                && var p := PushActions(Resume(), path, lastPos, total, playing, quit, margins);
                   if old(paused) then emitted == old(emitted) && ok
                   else emitted == old(emitted) + p.actions && ok == p.completed
      ensures listen == old(listen) && lastPos == old(lastPos) && total == old(total) && quit == old(quit)
      ensures positionThread == old(positionThread) && path == old(path) && Resume() == old(Resume())
    {
      ok := true;
      if !listen {
        return;
      }
      if !paused {
        ok := PushPosition(lastPos, total, playing);
        if !ok {
          return;
        }
      }
      paused := false;
    }

    /** onPlayBackEnded: set quit and move the position to the total. */
    method OnPlayBackEnded()
      requires Valid()
      modifies this
      ensures Valid()
      ensures !old(listen) ==> unchanged(this)
      ensures old(listen) ==> quit && lastPos == total
      ensures listen == old(listen) && paused == old(paused) && total == old(total) && emitted == old(emitted)
      ensures positionThread == old(positionThread) && path == old(path) && Resume() == old(Resume())
    {
      if !listen {
        return;
      }
      quit := true;
      lastPos := total;
    }

    /** onPlayBackError: set quit, nothing more. */
    method OnPlayBackError()
      requires Valid()
      modifies this`quit
      ensures Valid()
      ensures quit == (old(quit) || listen)
    {
      if !listen {
        return;
      }
      quit := true;
    }

    /** onPlayBackStopped: set quit, nothing more. */
    method OnPlayBackStopped()
      requires Valid()
      modifies this`quit
      ensures Valid()
      ensures quit == (old(quit) || listen)
    {
      if !listen {
        return;
      }
      quit := true;
    }

    /** onThreadExit: forget the position thread and push the last position
        and total. It does not look at `listen`. */
    method OnThreadExit(playing: bool) returns (ok: bool)
      requires Valid()
      modifies this`positionThread, this`emitted
      ensures Valid()
      ensures !positionThread
      ensures var p := PushActions(Resume(), path, lastPos, total, playing, quit, margins);
              emitted == old(emitted) + p.actions && ok == p.completed
    {
      positionThread := false;
      ok := PushPosition(lastPos, total, playing);
    }

    /** stream_position, run by the position thread: poll while Kodi plays and
        quit is clear, then call onThreadExit once. `ticks` are Kodi's answers
        round by round; if they run out before the loop ends the thread is
        still polling (`exited == false`) and onThreadExit has not run yet.
        `playingAtExit` is isPlaying() as onThreadExit's push sees it. */
    method StreamPosition(ticks: seq<Tick>, playingAtExit: bool) returns (exited: bool, ok: bool)
      requires Valid()
      modifies this`lastPos, this`quit, this`positionThread, this`emitted
      ensures Valid()
      ensures var r := SampleRun(ticks, old(lastPos), old(quit));
              exited == r.exited && lastPos == r.lastPos && quit == r.quit
      ensures exited ==>
                && !positionThread
                && (var p := PushActions(Resume(), path, lastPos, total, playingAtExit, quit, margins);
                    emitted == old(emitted) + p.actions && ok == p.completed)
      ensures !exited ==> positionThread == old(positionThread) && emitted == old(emitted) && ok
    {
      exited := PollWhilePlaying(ticks);
      ok := true;
      if exited {
        ok := OnThreadExit(playingAtExit);
      }
    }

    /** The while loop of stream_position: each round tests isPlaying() and
        quit, samples the position, and waits on the quit Event. */
    method PollWhilePlaying(ticks: seq<Tick>) returns (exited: bool)
      modifies this`lastPos, this`quit
      ensures var r := SampleRun(ticks, old(lastPos), old(quit));
              exited == r.exited && lastPos == r.lastPos && quit == r.quit
    {
      ghost var run := SampleRun(ticks, lastPos, quit);
      var i := 0;
      exited := false;
      while i < |ticks| && !exited
        invariant 0 <= i <= |ticks|
        invariant !exited ==> var r := SampleRun(ticks[i..], lastPos, quit);
                              run.lastPos == r.lastPos && run.quit == r.quit && run.exited == r.exited
        invariant exited ==> run.exited && run.lastPos == lastPos && run.quit == quit
        decreases |ticks| - i
      {
        var t := ticks[i];
        if !t.playing || quit {
          exited := true;
        } else {
          UpdatePosition(t.time);
          if t.woken {
            // another handler set the quit Event while the thread waited on it
            quit := true;
            exited := true;
          }
        }
        assert ticks[i..][1..] == ticks[i + 1..];
        i := i + 1;
      }
    }

    /** add_upnext: sample position and total, then queue the Up Next URL or
        play it (see UpNextChoice). It does not look at `listen`. */
    method AddUpNext(videoId: string, time: Option<real>, totalTime: Option<real>, playing: bool)
      returns (ok: bool)
      requires Valid()
      modifies this`lastPos, this`total, this`emitted
      ensures Valid()
      ensures lastPos == PositionAfter(old(lastPos), time) && total == TotalAfter(old(total), totalTime)
      ensures var choice := UpNextChoice(UpNextUrlPrefix + videoId, playing, lastPos, total);
              ok == choice.Some? && emitted == old(emitted) + (if ok then [choice.value] else [])
    {
      var link := UpNextUrlPrefix + videoId;
      UpdatePosition(time);
      UpdateTotal(totalTime);
      var choice := UpNextChoice(link, playing, lastPos, total);
      ok := choice.Some?;
      if ok {
        emitted := emitted + [choice.value];
      }
    }

    /** update_position: keep the old position when getTime raised. */
    method UpdatePosition(reading: Option<real>)
      modifies this`lastPos
      ensures lastPos == PositionAfter(old(lastPos), reading)
    {
      if reading.Some? {
        lastPos := reading;
      }
    }

    /** update_total: keep the old total when getTotalTime raised or read 0. */
    method UpdateTotal(reading: Option<real>)
      requires Valid()
      modifies this`total
      ensures Valid()
      ensures total == TotalAfter(old(total), reading)
    {
      if reading.Some? && reading.value > 0.0 {
        total := reading;
      }
    }

    /** push_position, with `playing` as isPlaying() answers it. */
    method PushPosition(position: Option<real>, total: Option<real>, playing: bool) returns (ok: bool)
      modifies this`emitted
      ensures var p := PushActions(Resume(), path, position, total, playing, quit, margins);
              emitted == old(emitted) + p.actions && ok == p.completed
    {
      if !HasAsset(assetId) {
        return true;
      }
      emitted := emitted + [UpdateResumePoint(assetId.value, title, url, position, total, whatsonId)];
      if path.None? {
        return false;
      }
      if !(UpNextPathPrefix <= path.value) {
        if position.None? || total.None? {
          return false;
        }
        if !Overrule(position.value, total.value, margins) {
          return true;
        }
      }
      if playing || !quit {
        return true;
      }
      emitted := emitted + [ReloadContainer];
      return true;
    }
  }
}
