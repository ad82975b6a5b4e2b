/**
 * The decisions behind kew's playback bookkeeping, as small pure functions:
 * where a restart starts from, when a dequeued song stops playback, where
 * an error retry goes next, and when the main loop services playback. It also
 * holds the vocabulary shared with the Player class: song ids, the log of
 * calls into code outside kew.c, and what those calls report back.
 */
module Playback {
  import opened Common

  /** A playlist node's `id`; -1 is the "no song" value of `lastPlayedId`. */
  type SongId = int

  // ---------------------------------------------------------------- playlist

  /** Node ids are unique within the playlist. */
  predicate Unique(pl: seq<SongId>)
  {
    forall i, j :: 0 <= i < j < |pl| ==> pl[i] != pl[j]
  }

  function IndexOf(pl: seq<SongId>, id: SongId): (k: nat)
    requires id in pl
    ensures k < |pl| && pl[k] == id
    ensures forall j :: 0 <= j < k ==> pl[j] != id
  {
    if pl[0] == id then 0 else 1 + IndexOf(pl[1..], id)
  }

  /** findSelectedEntryById / findNodeInList: the node with this id, or null. */
  function Find(pl: seq<SongId>, id: SongId): Option<SongId>
  {
    if id in pl then Some(id) else None
  }

  function Head(pl: seq<SongId>): Option<SongId>
  {
    if pl == [] then None else Some(pl[0])
  }

  function Tail(pl: seq<SongId>): Option<SongId>
  {
    if pl == [] then None else Some(pl[|pl| - 1])
  }

  /** `node->next`: null at the tail, and for a node that is no longer listed. */
  function Next(pl: seq<SongId>, id: SongId): (r: Option<SongId>)
    ensures r.Some? ==> r.value in pl && id in pl
  {
    if id in pl && IndexOf(pl, id) + 1 < |pl| then Some(pl[IndexOf(pl, id) + 1]) else None
  }

  /** The MPRIS CanGoNext property: there is a current song and it has a successor. */
  predicate CanGoNext(current: Option<SongId>, pl: seq<SongId>)
  {
    current.Some? && Next(pl, current.value).Some?
  }

  // ------------------------------------------------------------- the log

  /** Which edit processInput made to the search text. */
  datatype SearchEditKind = Deleted | Appended(text: seq<byte>)

  /** A call into code outside kew.c, recorded in the order it is made. */
  datatype Call =
    | EmitNoTrack                      // emitMetadataChanged with the NoTrack object path
    | EmitPlaybackStopped
    | CleanupPlaybackDevice            // under dataSourceMutex
    | StopPlayback
    | SwitchAudioImplementation
    | UnloadSongA
    | UnloadSongB
    | ForgetCurrentSongData            // userData.currentSongData = NULL
    | UninitDataSource                 // ma_data_source_uninit(&audioData)
    | ReshufflePlaylist
    | LoadFirst(first: Option<SongId>)
    | FinishLoading
    | CreateAudioDevice
    | ResumePlayback
    | LoadNextSong
    | LoadSong(target: SongId, intoA: bool)
    | AnnounceSong(announced: SongId)  // desktop notification and MPRIS metadata of notifySongSwitch
    | EmitCanGoNext(canGoNext: bool)
    | TogglePause
    | SetChosenDir
    | EnqueueSongs
    | SkipToSong(id: SongId)
    | SkipToNumberedSong(number: int)
    | SkipToLastSong
    | SetCurrentSongToNext
    | ResetTimeCount
    | UnloadPreviousSong
    | Quit
    | RemoveSelected                   // handleRemove
    | EditSearch(edit: SearchEditKind)
    | Dispatch(kind: EventType)        // a handleInput case outside this model
    | PumpMainContext
    | UpdatePlayer
    | UpdateLastSongSwitchTime
    | SetEOFNotReached

  /** The calls of setEndOfListReached. */
  const EndOfListCalls: seq<Call> := [EmitNoTrack, EmitPlaybackStopped, CleanupPlaybackDevice]

  /** The calls of resetListAfterDequeuingPlayingSong when it stops playback. */
  const DequeueCalls: seq<Call> :=
    [StopPlayback, EmitNoTrack, EmitPlaybackStopped, CleanupPlaybackDevice, SwitchAudioImplementation,
     UnloadSongA, UnloadSongB, ForgetCurrentSongData, UninitDataSource]

  // --------------------------------------------------------------- outcomes

  /** A slot's song data: error flag and title (None: no metadata). */
  datatype SongData = SongData(hasErrors: bool, title: Option<string>)

  /** What determineCurrentSongData reports: whether the live slot is deleted, and its data. */
  datatype SlotReport = SlotReport(isDeleted: bool, data: Option<SongData>)

  /** What loadAudioData's collaborators report. */
  datatype LoadOutcome = LoadOutcome(shuffleEnabled: bool, loadFirstResult: int, createDeviceResult: int, slot: SlotReport)

  /** What prepareNextSong's collaborators report; `successor` is where setCurrentSongToNext leaves the cursor. */
  datatype AdvanceOutcome = AdvanceOutcome(repeatEnabled: bool, successor: Option<SongId>, quitAfterStopping: bool, slot: SlotReport)

  /** What the go-to handlers' collaborators report: pause state, highlighted id, enqueueSongs' playlist and cursor, and where each skip lands. */
  datatype GoToOutcome = GoToOutcome(
    isPaused: bool,
    chosenNodeId: SongId,
    enqueued: seq<SongId>,
    currentAfterEnqueue: Option<SongId>,
    skipTarget: Option<SongId>,
    numberedTarget: Option<SongId>,
    lastTarget: Option<SongId>)

  /**
   * The go-to outcomes, handleRemove's playlist and cursor, and the view a
   * view-switching handler (toggleShowLibrary, tabNext, ...) leaves.
   */
  datatype InputOutcome = InputOutcome(goTo: GoToOutcome, afterRemove: seq<SongId>, currentAfterRemove: Option<SongId>, view: View)

  datatype TickOutcome = TickOutcome(input: InputOutcome, load: LoadOutcome, playbackDone: bool, advance: AdvanceOutcome)

  predicate InputOk(w: InputOutcome)
  {
    Unique(w.goTo.enqueued) && Unique(w.afterRemove)
  }

  /** loadFirst and createAudioDevice both succeeded. */
  predicate LoadSucceeded(o: LoadOutcome)
  {
    o.loadFirstResult >= 0 && o.createDeviceResult >= 0
  }

  /** The calls of a restart up to resuming or giving up: createAudioDevice only runs after a successful loadFirst. */
  function RestartCalls(o: LoadOutcome, first: Option<SongId>): seq<Call>
  {
    (if o.shuffleEnabled then [ReshufflePlaylist] else [])
    + [UnloadSongA, UnloadSongB, LoadFirst(first), FinishLoading]
    + (if o.loadFirstResult >= 0 then [CreateAudioDevice] else [])
  }

  // ---------------------------------------------------------- notification

  /** The announcement a notification makes, if it fires. */
  function Announcement(fire: bool, current: SongId): seq<Call>
  {
    if fire then [AnnounceSong(current)] else []
  }

  /** handleGoToSong publishes CanGoNext only when it changed. */
  function CanGoNextSignal(before: bool, after: bool): seq<Call>
  {
    if before != after then [EmitCanGoNext(after)] else []
  }

  /** notifySongSwitch's test: data present, without errors, with metadata and a non-empty title. */
  predicate Announceable(data: Option<SongData>)
  {
    data.Some? && !data.value.hasErrors && data.value.title.Some? && |data.value.title.value| > 0
  }

  /** determineSongAndNotify announces the current song if not yet announced and its slot is live. */
  predicate ShouldAnnounce(lastNotifiedId: SongId, current: SongId, slot: SlotReport)
  {
    lastNotifiedId != current && !slot.isDeleted && Announceable(slot.data)
  }

  // --------------------------------------------------------------- restart

  /** The song a restart starts from, and what becomes of `songToStartFrom` and `startFromTop`. */
  datatype RestartPick = RestartPick(song: Option<SongId>, songToStartFrom: Option<SongId>, startFromTop: bool)

  /**
   * loadAudioData's choice when restarting: the head while waiting for a
   * playlist; otherwise the requested song, else the song after the last
   * played one (or that song itself at the tail), else the current song;
   * failing all of those the head (consuming `startFromTop`) or the tail.
   */
  function PickStart(waitingForPlaylist: bool, songToStartFrom: Option<SongId>, lastPlayedId: SongId,
                     currentSong: Option<SongId>, startFromTop: bool, pl: seq<SongId>): RestartPick
  {
    if waitingForPlaylist then RestartPick(Head(pl), songToStartFrom, startFromTop)
    else
      var cur :=
        if songToStartFrom.Some? then Find(pl, songToStartFrom.value)
        else if lastPlayedId >= 0 then
          var last := Find(pl, lastPlayedId);
          if last.Some? && Next(pl, last.value).Some? then Next(pl, last.value) else last
        else currentSong;
      if cur.Some? then RestartPick(cur, None, startFromTop)
      else if startFromTop then RestartPick(Head(pl), None, false)
      else RestartPick(Tail(pl), None, startFromTop)
  }

  /** resetListAfterDequeuingPlayingSong's test: the last played song is gone and nothing is current. */
  predicate Orphaned(lastPlayedId: SongId, currentSong: Option<SongId>, pl: seq<SongId>)
  {
    lastPlayedId >= 0 && currentSong.None? && Find(pl, lastPlayedId).None?
  }

  /** Where a restart resumes after songs are enqueued from the library. */
  datatype Resume = Resume(lastPlayedId: SongId, startFromTop: bool)

  /** handleGoToSong in the library view while restarting: keep the last played id if listed, else fall back to the tail, else to the top. */
  function RememberLastPlayed(lastPlayedId: SongId, pl: seq<SongId>): Resume
  {
    if Find(pl, lastPlayedId).Some? then Resume(lastPlayedId, false)
    else if Tail(pl).Some? then Resume(Tail(pl).value, false)
    else Resume(-1, true)
  }

  // ------------------------------------------------------------ error retry

  /** tryLoadNext's step of the retry cursor: from the current song the first time, then onwards. */
  function RetryTarget(pl: seq<SongId>, current: Option<SongId>, tryNext: Option<SongId>): Option<SongId>
  {
    if tryNext.None? && current.Some? then Next(pl, current.value)
    else if tryNext.Some? then Next(pl, tryNext.value)
    else None
  }

  /** The retry cursor after k consecutive retries that all failed. */
  function RetryTargets(pl: seq<SongId>, current: Option<SongId>, k: nat): Option<SongId>
  {
    if k == 0 then None else RetryTarget(pl, current, RetryTargets(pl, current, k - 1))
  }

  // ------------------------------------------------------------------ tick

  const UIntRange: int := 0x1_0000_0000

  /** `updateCounter++` on a 32-bit unsigned counter. */
  function NextCounter(c: int): int
  {
    (c + 1) % UIntRange
  }

  /** The tick services playback every other time, and every time in the search view. */
  predicate ShouldService(counter: int, view: View)
  {
    counter % 2 == 0 || view == SearchView
  }

  /** mainloop_callback's test for loading: a skip made while stopped, or no next song preloaded, or a stale one, short of the end of the list. */
  predicate NeedsLoad(skipFromStopped: bool, loadedNextSong: bool, nextSongNeedsRebuilding: bool, endOfListReached: bool)
  {
    (skipFromStopped || !loadedNextSong || nextSongNeedsRebuilding) && !endOfListReached
  }

  // ---------------------------------------------------------------- lemmas

  /** With unique ids, `next` of the i-th node is the (i+1)-th, or null at the tail. */
  lemma NextIsSuccessor(pl: seq<SongId>, i: nat)
    requires Unique(pl) && i < |pl|
    ensures Next(pl, pl[i]) == if i + 1 < |pl| then Some(pl[i + 1]) else None
  {
    assert forall j :: 0 <= j < |pl| && j != i ==> pl[j] != pl[i];
  }

  /** loadAudioData's order of preference for the song a restart starts from. */
  lemma RestartPriority(waitingForPlaylist: bool, songToStartFrom: Option<SongId>, lastPlayedId: SongId,
                        currentSong: Option<SongId>, startFromTop: bool, pl: seq<SongId>)
    requires Unique(pl) && pl != []
    ensures var p := PickStart(waitingForPlaylist, songToStartFrom, lastPlayedId, currentSong, startFromTop, pl);
      && (waitingForPlaylist ==> p.song == Some(pl[0]) && p.startFromTop == startFromTop)
      && (!waitingForPlaylist ==> p.songToStartFrom.None?)
      && (!waitingForPlaylist && songToStartFrom.Some? && songToStartFrom.value in pl ==>
            p.song == songToStartFrom && p.startFromTop == startFromTop)
      && (!waitingForPlaylist && songToStartFrom.Some? && songToStartFrom.value !in pl ==>
            p.song == Some(if startFromTop then pl[0] else pl[|pl| - 1]) && !p.startFromTop)
      && (!waitingForPlaylist && songToStartFrom.None? && lastPlayedId >= 0 && lastPlayedId in pl ==>
            && p.song == Some(if IndexOf(pl, lastPlayedId) + 1 < |pl| then pl[IndexOf(pl, lastPlayedId) + 1] else lastPlayedId)
            && p.startFromTop == startFromTop)
      && (!waitingForPlaylist && songToStartFrom.None? && lastPlayedId >= 0 && lastPlayedId !in pl ==>
            p.song == Some(if startFromTop then pl[0] else pl[|pl| - 1]) && !p.startFromTop)
      && (!waitingForPlaylist && songToStartFrom.None? && lastPlayedId < 0 && currentSong.Some? ==>
            p.song == currentSong && p.startFromTop == startFromTop)
      && (!waitingForPlaylist && songToStartFrom.None? && lastPlayedId < 0 && currentSong.None? ==>
            p.song == Some(if startFromTop then pl[0] else pl[|pl| - 1]) && !p.startFromTop)
  {
    if !waitingForPlaylist && songToStartFrom.None? && lastPlayedId >= 0 && lastPlayedId in pl {
      NextIsSuccessor(pl, IndexOf(pl, lastPlayedId));
    }
  }

  /** On a non-empty playlist a restart always picks a listed song (given a current song that is listed, if any). */
  lemma RestartPicksListedSong(waitingForPlaylist: bool, songToStartFrom: Option<SongId>, lastPlayedId: SongId,
                               currentSong: Option<SongId>, startFromTop: bool, pl: seq<SongId>)
    requires pl != []
    requires currentSong.Some? ==> currentSong.value in pl
    ensures var p := PickStart(waitingForPlaylist, songToStartFrom, lastPlayedId, currentSong, startFromTop, pl);
      p.song.Some? && p.song.value in pl
  {
  }

  /** After the playing song is dequeued, the next restart begins at the head and consumes `startFromTop`. */
  lemma DequeuedSongRestartsFromTop(lastPlayedId: SongId, pl: seq<SongId>)
    requires Orphaned(lastPlayedId, None, pl) && pl != []
    ensures PickStart(false, None, lastPlayedId, None, true, pl) == RestartPick(Some(pl[0]), None, false)
  {
  }

  /**
   * Enqueuing from the library while stopped, when the last played song was
   * the tail or is gone, makes the restart begin at the first newly added song.
   */
  lemma {:induction false} LibraryEnqueueResumesAtNewSongs(lastPlayedId: SongId, pl: seq<SongId>, added: seq<SongId>)
    requires Unique(pl + added) && added != [] && forall id :: id in pl ==> id >= 0
    requires lastPlayedId !in pl || (pl != [] && lastPlayedId == pl[|pl| - 1])
    ensures var r := RememberLastPlayed(lastPlayedId, pl);
      PickStart(false, None, r.lastPlayedId, None, r.startFromTop, pl + added).song == Some(added[0])
  {
    var r := RememberLastPlayed(lastPlayedId, pl);
    var all := pl + added;
    if pl != [] {
      assert pl[|pl| - 1] in pl;
      assert r.lastPlayedId == pl[|pl| - 1] == all[|pl| - 1];
      assert r.lastPlayedId >= 0 && !r.startFromTop;
      NextIsSuccessor(all, |pl| - 1);
      assert all[|pl|] == added[0];
      assert Find(all, r.lastPlayedId) == Some(r.lastPlayedId);
      assert Next(all, r.lastPlayedId) == Some(added[0]);
    } else {
      assert r == Resume(-1, true);
      assert all == added;
    }
  }

  /**
   * Consecutive failed retries from the song at index i visit the following
   * songs one at a time and run out exactly after the tail.
   */
  lemma {:induction false} RetryWalk(pl: seq<SongId>, i: nat, k: nat)
    requires Unique(pl) && i < |pl| && 1 <= k && i + k <= |pl|
    ensures RetryTargets(pl, Some(pl[i]), k) == if i + k < |pl| then Some(pl[i + k]) else None
  {
    NextIsSuccessor(pl, i + k - 1);
    if k > 1 {
      RetryWalk(pl, i, k - 1);
    }
  }

  /** A retry that ran past the tail starts over after the current song. */
  lemma RetryStartsOver(pl: seq<SongId>, i: nat)
    requires Unique(pl) && i < |pl|
    ensures RetryTargets(pl, Some(pl[i]), |pl| - i + 1) == RetryTargets(pl, Some(pl[i]), 1)
  {
    RetryWalk(pl, i, |pl| - i);
  }

  /** Of two consecutive ticks exactly one services playback, unless the search view is shown, where every tick does. */
  lemma ServiceAlternates(c: int, v: View)
    requires 0 <= c < UIntRange
    ensures v == SearchView ==> ShouldService(NextCounter(c), v)
    ensures v != SearchView ==> ShouldService(NextCounter(c), v) != ShouldService(NextCounter(NextCounter(c)), v)
  {
    var c1 := NextCounter(c);
    assert c1 == if c + 1 < UIntRange then c + 1 else 0;
    var c2 := NextCounter(c1);
    assert c2 == if c1 + 1 < UIntRange then c1 + 1 else 0;
  }
}
