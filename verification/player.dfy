/**
 * kew's playback cursor and buffer-slot bookkeeping. The globals that kew.c
 * reads and writes are the fields of one Player; each function of kew.c that
 * changes them is a method whose contract states the new value of every field
 * it may change, in terms of the old values and the decisions of Playback.
 * Calls into code outside kew.c are appended to `trace.calls`, and what they report
 * back arrives as a parameter.
 */
module Player {
  import opened Common
  import opened Playback
  import Keys
  import Decoder

  /** The handleInput cases whose handler switches the view. */
  predicate SwitchesView(kind: EventType)
  {
    match kind
    case SHOWKEYBINDINGS | SHOWPLAYLIST | SHOWSEARCH | SHOWLIBRARY | SHOWTRACK | TABNEXT => true
    case _ => false
  }

  /** The events handleInput's `default` case takes. */
  predicate Unhandled(kind: EventType)
  {
    kind == NONE || kind == SEARCH
  }

  /** The skips, which first ask for the playlist display to be reset. */
  predicate IsSkip(kind: EventType)
  {
    kind == NEXT || kind == PREV
  }

  /** The view after handleInput has dispatched an event. */
  function ViewAfter(kind: EventType, switched: View, current: View): View
  {
    if SwitchesView(kind) then switched else current
  }

  /** The calls processInput makes to edit the search text. */
  function EditCalls(edit: Keys.SearchEdit): seq<Call>
  {
    match edit
    case NoEdit => []
    case DeleteChar => [EditSearch(Deleted)]
    case AppendText(t) => [EditSearch(Appended(t))]
  }

  /** The events that reach handleGoToSong's digit logic. */
  predicate GoesTo(kind: EventType)
  {
    kind == GOTOSONG || kind == GOTOBEGINNINGOFPLAYLIST || kind == GOTOENDOFPLAYLIST
  }

  /** handleGoToSong enqueues in the library and search views and moves within the playlist elsewhere. */
  predicate Enqueues(v: View)
  {
    v == LibraryView || v == SearchView
  }

  /** The calls made into code outside kew.c, oldest first. */
  class Trace {
    var calls: seq<Call>

    constructor ()
      ensures calls == []
    {
      calls := [];
    }
  }

  class Player {
    /** The key decoder's globals: gPressed, digitsPressed and its count, lastInputTime. */
    const keys: Decoder.InputDecoder

    /** `appState.currentView` */
    var view: View
    /** The node ids of `playlist`, head first. */
    var playlist: seq<SongId>
    var currentSong: Option<SongId>
    var tryNextSong: Option<SongId>
    var songToStartFrom: Option<SongId>
    var nextSong: Option<SongId>
    var lastPlayedId: SongId
    var lastNotifiedId: SongId
    var usingSongDataA: bool
    /** `loadingdata.loadA`: the next load goes to slot A. */
    var loadA: bool
    /** `loadingdata.loadingFirstDecoder` */
    var loadingFirstDecoder: bool
    /** `audioData.restart` */
    var restart: bool
    /** `audioData.endOfListReached` */
    var endOfListReached: bool
    /** `audioData.switchFiles` */
    var switchFiles: bool
    /** `audioData.currentFileIndex` */
    var currentFileIndex: int
    var loadedNextSong: bool
    var nextSongNeedsRebuilding: bool
    var songLoading: bool
    var waitingForPlaylist: bool
    var waitingForNext: bool
    var startFromTop: bool
    var songWasRemoved: bool
    var songHasErrors: bool
    var clearingErrors: bool
    var skipFromStopped: bool
    var skipOutOfOrder: bool
    /** `appState.uiState.resetPlaylistDisplay` */
    var resetPlaylistDisplay: bool
    var refresh: bool
    /** Cleared by handleInput's `default` case, for an event no handler takes. */
    var fastForwarding: bool
    var rewinding: bool
    /** `updateCounter`, an unsigned int. */
    var updateCounter: int
    /** Where the calls into code outside kew.c are recorded. */
    const trace: Trace

    ghost predicate Valid()
      reads this`playlist, this`updateCounter, keys, keys.digits
    {
      Unique(playlist) && 0 <= updateCounter < UIntRange && keys.Valid()
    }

    /** The next load goes to slot A, from the first file. */
    ghost predicate SlotsReset()
      reads this`usingSongDataA, this`currentFileIndex, this`loadA
    {
      !usingSongDataA && currentFileIndex == 0 && loadA
    }

    /** Nothing is preloaded, the end of the list is reached, a restart is pending and a redraw is due. */
    ghost predicate RestartPending()
      reads this`loadedNextSong, this`endOfListReached, this`restart, this`refresh
    {
      !loadedNextSong && endOfListReached && restart && refresh
    }

    /** The next restart waits for a song, after a removal, and starts from the top. */
    ghost predicate AwaitingRestartFromTop()
      reads this`songWasRemoved, this`waitingForNext, this`startFromTop, this`switchFiles
    {
      songWasRemoved && waitingForNext && startFromTop && !switchFiles
    }

    /** What setEndOfListReached leaves: library view, nothing current, slot A next, restart pending. */
    ghost predicate AtEndOfList()
      reads this, trace
    {
      view == LibraryView && currentSong.None? && RestartPending() && SlotsReset()
    }

    /**
     * What resetListAfterDequeuingPlayingSong leaves when it stops playback:
     * both slots empty, slot A next, and a restart from the top pending.
     */
    ghost predicate DequeueStopped()
      reads this`loadedNextSong, this`endOfListReached, this`restart, this`refresh, this`usingSongDataA,
            this`currentFileIndex, this`loadA, this`songWasRemoved, this`waitingForNext, this`startFromTop, this`switchFiles
    {
      RestartPending() && SlotsReset() && AwaitingRestartFromTop()
    }

    /** The slot flags keep their values. */
    twostate predicate SlotsKept()
      reads this, trace
    {
      && unchanged(this`loadedNextSong, this`usingSongDataA)
      && unchanged(this`currentFileIndex, this`loadA)
      && unchanged(this`songWasRemoved, this`endOfListReached)
    }

    /** The restart bookkeeping keeps its values. */
    twostate predicate RestartKept()
      reads this, trace
    {
      && unchanged(this`startFromTop, this`restart, this`refresh)
      && unchanged(this`waitingForNext, this`switchFiles)
      && unchanged(this`songToStartFrom)
    }

    /** The view and the seek flags keep their values. */
    twostate predicate ControlsKept()
      reads this, trace
    {
      unchanged(this`view, this`fastForwarding, this`rewinding)
    }

    /**
     * resetListAfterDequeuingPlayingSong's effect, from the globals it found
     * (it changes neither `playlist`, `currentSong` nor `lastPlayedId`): when the
     * last played song is gone and nothing is current, playback stops and a
     * restart from the top is set up; otherwise nothing changes. `log0` is the
     * log it started from, `startFromTop0` the flag before any change the
     * caller made, and `tail` what was logged after it.
     */
    twostate predicate DequeueReset(log0: seq<Call>, startFromTop0: bool, tail: seq<Call>)
      reads this, trace
    {
      if Orphaned(lastPlayedId, currentSong, playlist) then
        && DequeueStopped()
        && songToStartFrom == (if playlist == [] then None else old(songToStartFrom))
        && trace.calls == log0 + DequeueCalls + tail
      else
        && SlotsKept()
        && unchanged(this`restart, this`refresh, this`waitingForNext)
        && unchanged(this`switchFiles, this`songToStartFrom)
        && startFromTop == startFromTop0
        && trace.calls == log0 + tail
    }

    /** kew.c's initial globals; those declared elsewhere start zeroed, as C's static storage does. */
    constructor (keys: Decoder.InputDecoder, view: View, playlist: seq<SongId>, lastPlayedId: SongId)
      requires keys.Valid() && Unique(playlist)
      ensures Valid() && this.keys == keys
      ensures this.view == view && this.playlist == playlist && this.lastPlayedId == lastPlayedId
      ensures currentSong.None? && tryNextSong.None? && songToStartFrom.None? && nextSong.None?
      ensures lastNotifiedId == -1 && updateCounter == 0 && fresh(trace) && trace.calls == []
      ensures !startFromTop && !songWasRemoved && !restart && !endOfListReached && !loadedNextSong
      ensures !usingSongDataA && !loadA && !loadingFirstDecoder && !switchFiles && currentFileIndex == 0
      ensures !nextSongNeedsRebuilding && !songLoading && !waitingForPlaylist && !waitingForNext
      ensures !songHasErrors && !clearingErrors && !skipFromStopped && !skipOutOfOrder
      ensures !resetPlaylistDisplay && !refresh && !fastForwarding && !rewinding
    {
      this.keys := keys;
      this.view := view;
      this.playlist := playlist;
      this.lastPlayedId := lastPlayedId;
      currentSong, tryNextSong, songToStartFrom, nextSong := None, None, None, None;
      lastNotifiedId := -1;
      usingSongDataA, loadA, loadingFirstDecoder := false, false, false;
      restart, endOfListReached, switchFiles := false, false, false;
      currentFileIndex := 0;
      loadedNextSong, nextSongNeedsRebuilding, songLoading := false, false, false;
      waitingForPlaylist, waitingForNext, startFromTop, songWasRemoved := false, false, false, false;
      songHasErrors, clearingErrors, skipFromStopped, skipOutOfOrder := false, false, false, false;
      resetPlaylistDisplay, refresh := false, false;
      fastForwarding, rewinding := false, false;
      updateCounter := 0;
      trace := new Trace();
    }

    /** The slot assignments shared by the end of the list, a dequeue and a jump: the next load goes to slot A from the first file. */
    method ResetSlots()
      modifies this`usingSongDataA, this`currentFileIndex, this`loadA
      ensures SlotsReset()
    {
      usingSongDataA := false;
      currentFileIndex := 0;
      loadA := true;
    }

    /** The assignments shared by the end of the list and a dequeue: nothing preloaded, the end reached, a restart pending, a redraw due. */
    method MarkRestartPending()
      modifies this`loadedNextSong, this`endOfListReached, this`restart, this`refresh
      ensures RestartPending()
    {
      loadedNextSong := false;
      endOfListReached := true;
      restart := true;
      refresh := true;
    }

    /** setEndOfListReached: stop, forget the current song, and show the library. */
    method SetEndOfListReached()
      modifies this`view, this`loadedNextSong, this`endOfListReached, this`usingSongDataA, this`currentSong,
               this`currentFileIndex, this`restart, this`loadA, this`refresh, trace
      ensures AtEndOfList()
      ensures trace.calls == old(trace.calls) + EndOfListCalls
    {
      view := LibraryView;
      MarkRestartPending();
      ResetSlots();
      currentSong := None;
      trace.calls := trace.calls + EndOfListCalls;
    }

    /** The flags resetListAfterDequeuingPlayingSong raises so that the next restart waits for a song and starts from the top. */
    method AwaitRestartFromTop()
      modifies this`songWasRemoved, this`waitingForNext, this`startFromTop, this`switchFiles
      ensures AwaitingRestartFromTop()
    {
      songWasRemoved := true;
      waitingForNext := true;
      startFromTop := true;
      switchFiles := false;
    }

    /** resetListAfterDequeuingPlayingSong */
    method ResetListAfterDequeuingPlayingSong()
      modifies this`loadedNextSong, this`endOfListReached, this`restart, this`refresh, this`songWasRemoved,
               this`currentFileIndex, this`waitingForNext, this`startFromTop, this`loadA, this`usingSongDataA,
               this`switchFiles, this`songToStartFrom, trace
      ensures DequeueReset(old(trace.calls), old(startFromTop), [])
    {
      if lastPlayedId < 0 {
        return;
      }
      var node := Find(playlist, lastPlayedId);
      if currentSong.None? && node.None? {
        if |playlist| == 0 {
          songToStartFrom := None;
        }
        StopAfterDequeue();
      }
    }

    /**
     * The stop resetListAfterDequeuingPlayingSong performs: stopPlayback, the
     * NoTrack metadata and stopped status, cleanupPlaybackDevice,
     * switchAudioImplementation, unloading both slots, dropping the current
     * song data and uninitialising the data source, with the flags that make
     * the next restart start from the top.
     */
    method StopAfterDequeue()
      modifies this`loadedNextSong, this`endOfListReached, this`restart, this`refresh, this`songWasRemoved,
               this`currentFileIndex, this`waitingForNext, this`startFromTop, this`loadA, this`usingSongDataA,
               this`switchFiles, trace
      ensures DequeueStopped() && trace.calls == old(trace.calls) + DequeueCalls
    {
      trace.calls := trace.calls + DequeueCalls;
      MarkRestartPending();
      AwaitRestartFromTop();
      ResetSlots();
    }

    /** notifySongSwitch: announce the current song if its data has a title and no errors. */
    method NotifySongSwitch(data: Option<SongData>)
      requires currentSong.Some?
      modifies this`lastNotifiedId, trace
      ensures trace.calls == old(trace.calls) + Announcement(Announceable(data), currentSong.value)
      ensures lastNotifiedId == if Announceable(data) then currentSong.value else old(lastNotifiedId)
    {
      if data.Some? && !data.value.hasErrors && data.value.title.Some? && |data.value.title.value| > 0 {
        trace.calls := trace.calls + [AnnounceSong(currentSong.value)];
        lastNotifiedId := currentSong.value;
      }
    }

    /** determineSongAndNotify: announce the current song once, unless its slot was deleted. */
    method DetermineSongAndNotify(slot: SlotReport)
      requires currentSong.Some?
      modifies this`lastNotifiedId, trace
      ensures var fire := ShouldAnnounce(old(lastNotifiedId), currentSong.value, slot);
        && trace.calls == old(trace.calls) + Announcement(fire, currentSong.value)
        && lastNotifiedId == (if fire then currentSong.value else old(lastNotifiedId))
    {
      if lastNotifiedId != currentSong.value {
        if !slot.isDeleted {
          NotifySongSwitch(slot.data);
        }
      }
    }

    /**
     * A restart's effect: the song PickStart chooses is loaded and played, or,
     * when loading it or opening the device fails, the end of the list is
     * declared; either way the waiting flags are cleared and nothing is
     * preloaded. The playlist and the last played id do not change.
     */
    twostate predicate Restarted(o: LoadOutcome)
      reads this, trace
    {
      var pick := PickStart(old(waitingForPlaylist), old(songToStartFrom), old(lastPlayedId), old(currentSong), old(startFromTop), old(playlist));
      && songLoading && Picked(pick) && WaitingCleared() && NothingPreloaded()
      && (LoadSucceeded(o) ==>
            && currentSong == pick.song && !restart
            && trace.calls == old(trace.calls) + RestartCalls(o, pick.song) + [ResumePlayback]
            && unchanged(this`view, this`endOfListReached)
            && usingSongDataA == old(usingSongDataA) && currentFileIndex == old(currentFileIndex) && loadA == old(loadA))
      && (!LoadSucceeded(o) ==>
            && AtEndOfList()
            && trace.calls == old(trace.calls) + RestartCalls(o, pick.song) + EndOfListCalls)
    }

    /** `songToStartFrom` and `startFromTop` as the restart's pick leaves them. */
    ghost predicate Picked(pick: RestartPick)
      reads this`songToStartFrom, this`startFromTop
    {
      songToStartFrom == pick.songToStartFrom && startFromTop == pick.startFromTop
    }

    /** Nothing is waited for and no removal is outstanding. */
    ghost predicate WaitingCleared()
      reads this`waitingForPlaylist, this`waitingForNext, this`songWasRemoved
    {
      !waitingForPlaylist && !waitingForNext && !songWasRemoved
    }

    /** Nothing is preloaded and a redraw is due. */
    ghost predicate NothingPreloaded()
      reads this`loadedNextSong, this`nextSong, this`refresh
    {
      !loadedNextSong && nextSong.None? && refresh
    }

    /** Loading the next song: logged, and the current song announced once. */
    twostate predicate LoadedNext(o: LoadOutcome)
      reads this, trace
    {
      && currentSong.Some?
      && var fire := ShouldAnnounce(old(lastNotifiedId), currentSong.value, o.slot);
      && trace.calls == old(trace.calls) + [LoadNextSong] + Announcement(fire, currentSong.value)
      && lastNotifiedId == (if fire then currentSong.value else old(lastNotifiedId))
    }

    /**
     * loadAudioData. When a restart is pending and there is a playlist to wait
     * for, start over (Restarted). Otherwise, when a song is current and the
     * next one is missing or stale and nothing is loading, load the next song
     * and announce the current one (LoadedNext). Otherwise nothing happens.
     */
    method LoadAudioData(o: LoadOutcome)
      modifies this`songLoading, this`currentSong, this`songToStartFrom, this`startFromTop, this`restart,
               this`waitingForPlaylist, this`waitingForNext, this`songWasRemoved, trace,
               this`view, this`loadedNextSong, this`endOfListReached, this`usingSongDataA, this`currentFileIndex,
               this`loadA, this`refresh, this`nextSong, this`lastNotifiedId
      ensures old(restart) && playlist != [] && (old(waitingForPlaylist) || old(waitingForNext)) ==> Restarted(o)
      ensures !old(restart) && old(currentSong).Some? && (nextSongNeedsRebuilding || old(nextSong).None?) && !old(songLoading) ==>
        && LoadedNext(o)
        && unchanged(this`songLoading, this`currentSong, this`songToStartFrom, this`startFromTop, this`restart,
                     this`waitingForPlaylist, this`waitingForNext, this`songWasRemoved, this`view,
                     this`loadedNextSong, this`endOfListReached, this`usingSongDataA, this`currentFileIndex,
                     this`loadA, this`refresh, this`nextSong)
      ensures old(restart) && !(playlist != [] && (old(waitingForPlaylist) || old(waitingForNext))) ==> unchanged(this, trace)
      ensures !old(restart) && !(old(currentSong).Some? && (nextSongNeedsRebuilding || old(nextSong).None?) && !old(songLoading)) ==>
        unchanged(this, trace)
    {
      if restart {
        if playlist != [] && (waitingForPlaylist || waitingForNext) {
          RestartPlayback(o);
        }
      } else if currentSong.Some? && (nextSongNeedsRebuilding || nextSong.None?) && !songLoading {
        LoadNextAndNotify(o);
      }
    }

    /** The restart branch of loadAudioData. */
    method RestartPlayback(o: LoadOutcome)
      requires restart && playlist != [] && (waitingForPlaylist || waitingForNext)
      modifies this`songLoading, this`currentSong, this`songToStartFrom, this`startFromTop, this`restart,
               this`waitingForPlaylist, this`waitingForNext, this`songWasRemoved, trace,
               this`view, this`loadedNextSong, this`endOfListReached, this`usingSongDataA, this`currentFileIndex,
               this`loadA, this`refresh, this`nextSong
      ensures Restarted(o)
    {
      PickStartingSong();
      BeginLoading();
      OpenFirstSong(o);
    }

    /** loadAudioData's choice of the song to start from. */
    method PickStartingSong()
      requires playlist != [] && (waitingForPlaylist || waitingForNext)
      modifies this`currentSong, this`songToStartFrom, this`startFromTop
      ensures var pick := PickStart(old(waitingForPlaylist), old(songToStartFrom), old(lastPlayedId), old(currentSong), old(startFromTop), old(playlist));
        currentSong == pick.song && Picked(pick)
    {
      if waitingForPlaylist {
        currentSong := Head(playlist);
      } else if waitingForNext {
        if songToStartFrom.Some? {
          currentSong := Find(playlist, songToStartFrom.value);
          songToStartFrom := None;
        } else if lastPlayedId >= 0 {
          currentSong := Find(playlist, lastPlayedId);
          if currentSong.Some? && Next(playlist, currentSong.value).Some? {
            currentSong := Next(playlist, currentSong.value);
          }
        }
        if currentSong.None? {
          if startFromTop {
            currentSong := Head(playlist);
            startFromTop := false;
          } else {
            currentSong := Tail(playlist);
          }
        }
      }
    }

    /** The restart is under way: a song is loading, no restart is pending, nothing is waited for, no removal is outstanding. */
    method BeginLoading()
      modifies this`songLoading, this`restart, this`waitingForPlaylist, this`waitingForNext, this`songWasRemoved
      ensures songLoading && !restart && WaitingCleared()
    {
      songLoading := true;
      restart := false;
      waitingForPlaylist := false;
      waitingForNext := false;
      songWasRemoved := false;
    }

    /**
     * Reshuffle if asked, unload both slots, load the current song and open
     * the device; resume on success, otherwise declare the end of the list;
     * either way nothing is preloaded afterwards.
     */
    method OpenFirstSong(o: LoadOutcome)
      modifies trace, this`view, this`loadedNextSong, this`endOfListReached, this`usingSongDataA,
               this`currentSong, this`currentFileIndex, this`restart, this`loadA, this`refresh, this`nextSong
      ensures NothingPreloaded()
      ensures LoadSucceeded(o) ==>
        && trace.calls == old(trace.calls) + RestartCalls(o, currentSong) + [ResumePlayback]
        && unchanged(this`view, this`endOfListReached, this`usingSongDataA,
                     this`currentSong, this`currentFileIndex, this`restart, this`loadA)
      ensures !LoadSucceeded(o) ==> AtEndOfList() && trace.calls == old(trace.calls) + RestartCalls(o, old(currentSong)) + EndOfListCalls
    {
      if o.shuffleEnabled {
        trace.calls := trace.calls + [ReshufflePlaylist];
      }
      trace.calls := trace.calls + [UnloadSongA, UnloadSongB, LoadFirst(currentSong), FinishLoading];
      var res := o.loadFirstResult;
      if res >= 0 {
        trace.calls := trace.calls + [CreateAudioDevice];
        res := o.createDeviceResult;
      }
      if res >= 0 {
        trace.calls := trace.calls + [ResumePlayback];
      } else {
        SetEndOfListReached();
      }
      ForgetNextSong();
    }

    /** After a restart nothing is preloaded and a redraw is due. */
    method ForgetNextSong()
      modifies this`loadedNextSong, this`nextSong, this`refresh
      ensures NothingPreloaded()
    {
      loadedNextSong := false;
      nextSong := None;
      refresh := true;
    }

    /** The other branch of loadAudioData. */
    method LoadNextAndNotify(o: LoadOutcome)
      requires currentSong.Some?
      modifies trace, this`lastNotifiedId
      ensures LoadedNext(o)
    {
      trace.calls := trace.calls + [LoadNextSong];
      DetermineSongAndNotify(o.slot);
    }

    /**
     * tryLoadNext: after a song failed to decode, move the retry cursor one
     * song on (starting after the current song) and load that song into the
     * slot not in use; give up when the cursor runs off the tail.
     */
    method TryLoadNext()
      modifies this`songHasErrors, this`clearingErrors, this`tryNextSong, this`songLoading, this`loadA,
               this`loadingFirstDecoder, trace
      ensures var t := RetryTarget(playlist, currentSong, old(tryNextSong));
        && tryNextSong == t && !songHasErrors
        && (t.Some? ==>
              && clearingErrors && songLoading && loadA == !usingSongDataA && !loadingFirstDecoder
              && trace.calls == old(trace.calls) + [LoadSong(t.value, !usingSongDataA)])
        && (t.None? ==>
              && !clearingErrors && songLoading == old(songLoading) && loadA == old(loadA)
              && loadingFirstDecoder == old(loadingFirstDecoder) && trace.calls == old(trace.calls))
    {
      songHasErrors := false;
      clearingErrors := true;
      if tryNextSong.None? && currentSong.Some? {
        tryNextSong := Next(playlist, currentSong.value);
      } else if tryNextSong.Some? {
        tryNextSong := Next(playlist, tryNextSong.value);
      }
      if tryNextSong.Some? {
        LoadRetry();
      } else {
        clearingErrors := false;
      }
    }

    /** tryLoadNext's load of the retry target into the slot not in use. */
    method LoadRetry()
      requires tryNextSong.Some?
      modifies this`songLoading, this`loadA, this`loadingFirstDecoder, trace
      ensures songLoading && loadA == !usingSongDataA && !loadingFirstDecoder
      ensures trace.calls == old(trace.calls) + [LoadSong(tryNextSong.value, !usingSongDataA)]
    {
      songLoading := true;
      loadA := !usingSongDataA;
      loadingFirstDecoder := false;
      trace.calls := trace.calls + [LoadSong(tryNextSong.value, loadA)];
    }

    /**
     * prepareNextSong: when a song has finished, advance the cursor (unless
     * the skip was out of order or repeat is on), drop the finished song, and
     * then quit, give up at the end of the list, or announce the new song.
     */
    method PrepareNextSong(o: AdvanceOutcome)
      modifies this`currentSong, this`skipOutOfOrder, this`nextSong, this`refresh, trace, this`lastNotifiedId,
               this`view, this`loadedNextSong, this`endOfListReached, this`usingSongDataA, this`currentFileIndex,
               this`restart, this`loadA
      ensures var advanced := !old(skipOutOfOrder) && !o.repeatEnabled;
        var cur := if advanced then o.successor else old(currentSong);
        var log := old(trace.calls) + (if advanced then [SetCurrentSongToNext] else []) + [FinishLoading, ResetTimeCount]
                   + (if !o.repeatEnabled || cur.None? then [UnloadPreviousSong] else []);
        && !skipOutOfOrder && nextSong.None? && refresh
        && (cur.None? && o.quitAfterStopping ==>
              && currentSong.None? && trace.calls == log + [Quit] && lastNotifiedId == old(lastNotifiedId)
              && unchanged(this`view, this`loadedNextSong, this`endOfListReached, this`usingSongDataA,
                           this`currentFileIndex, this`restart, this`loadA))
        && (cur.None? && !o.quitAfterStopping ==>
              AtEndOfList() && trace.calls == log + EndOfListCalls && lastNotifiedId == old(lastNotifiedId))
        && (cur.Some? ==>
              var fire := ShouldAnnounce(old(lastNotifiedId), cur.value, o.slot);
              && currentSong == cur
              && trace.calls == log + Announcement(fire, cur.value)
              && lastNotifiedId == (if fire then cur.value else old(lastNotifiedId))
              && unchanged(this`view, this`loadedNextSong, this`endOfListReached, this`usingSongDataA,
                           this`currentFileIndex, this`restart, this`loadA))
    {
      AdvanceCursor(o);
      FinishPrevious(o.repeatEnabled);
      if currentSong.None? {
        if o.quitAfterStopping {
          trace.calls := trace.calls + [Quit];
        } else {
          SetEndOfListReached();
        }
      } else {
        DetermineSongAndNotify(o.slot);
      }
    }

    /** prepareNextSong's move to the next song, unless the skip was out of order or repeat is on. */
    method AdvanceCursor(o: AdvanceOutcome)
      modifies this`currentSong, this`skipOutOfOrder, trace
      ensures var advanced := !old(skipOutOfOrder) && !o.repeatEnabled;
        && currentSong == (if advanced then o.successor else old(currentSong))
        && !skipOutOfOrder
        && trace.calls == old(trace.calls) + (if advanced then [SetCurrentSongToNext] else [])
    {
      if !skipOutOfOrder && !o.repeatEnabled {
        trace.calls := trace.calls + [SetCurrentSongToNext];
        currentSong := o.successor;
      } else {
        skipOutOfOrder := false;
      }
    }

    /** prepareNextSong's cleanup: finish loading, restart the clock, and drop the previous song unless it repeats. */
    method FinishPrevious(repeatEnabled: bool)
      modifies trace, this`nextSong, this`refresh
      ensures nextSong.None? && refresh
      ensures trace.calls == old(trace.calls) + [FinishLoading, ResetTimeCount]
                       + (if !repeatEnabled || currentSong.None? then [UnloadPreviousSong] else [])
    {
      trace.calls := trace.calls + [FinishLoading, ResetTimeCount];
      nextSong := None;
      refresh := true;
      if !repeatEnabled || currentSong.None? {
        trace.calls := trace.calls + [UnloadPreviousSong];
      }
    }

    /** handleSkipFromStopped: a skip made while stopped loads into the other slot. */
    method HandleSkipFromStopped()
      modifies this`usingSongDataA, this`skipOutOfOrder, this`skipFromStopped
      ensures !skipFromStopped
      ensures old(skipFromStopped) ==> usingSongDataA == !old(usingSongDataA) && !skipOutOfOrder
      ensures !old(skipFromStopped) ==> unchanged(this)
    {
      if skipFromStopped {
        usingSongDataA := !usingSongDataA;
        skipOutOfOrder := false;
        skipFromStopped := false;
      }
    }

    // ------------------------------------------------------------- go to song

    /** The jump to the highlighted song: both slots reset, the skip done, and the slot chosen by what came before. */
    twostate predicate JumpedTo(w: GoToOutcome)
      reads this, trace
    {
      && loadedNextSong && !nextSongNeedsRebuilding && currentFileIndex == 0 && loadA && !endOfListReached
      && currentSong == w.skipTarget
      && usingSongDataA == (old(endOfListReached) || (old(songWasRemoved) && w.skipTarget.Some?))
      && songWasRemoved == (old(songWasRemoved) && w.skipTarget.None?)
    }

    /**
     * handleGoToSong in the library view (`fromSearch` false) or the search
     * view: when restarting from the library, first
     * remember where to resume; then enqueue the chosen entry and stop
     * playback if the playing song is no longer listed; CanGoNext is
     * published if it changed.
     */
    twostate predicate EnqueueEffect(w: GoToOutcome, fromSearch: bool, log0: seq<Call>)
      reads this, trace
    {
      var resume := if !fromSearch && old(restart) then RememberLastPlayed(old(lastPlayedId), old(playlist))
                    else Resume(old(lastPlayedId), old(startFromTop));
      && playlist == w.enqueued && currentSong == w.currentAfterEnqueue && lastPlayedId == resume.lastPlayedId
      && DequeueReset(log0 + (if fromSearch then [SetChosenDir] else []) + [EnqueueSongs], resume.startFromTop,
                      CanGoNextSignal(CanGoNext(old(currentSong), old(playlist)), CanGoNext(currentSong, playlist)))
      && unchanged(this`nextSongNeedsRebuilding, this`resetPlaylistDisplay)
    }

    /**
     * handleGoToSong in the other views, given the digits typed: with none,
     * toggle pause on the playing song if it is highlighted and paused, else
     * jump to the highlighted song; with some, skip to the song with that
     * number and clear the digits. CanGoNext is published if it changed.
     */
    twostate predicate PlaylistGoToEffect(w: GoToOutcome, digits: seq<byte>, log0: seq<Call>)
      requires keys.Valid()
      reads this, trace, keys, keys.digits
    {
      var sig := CanGoNextSignal(CanGoNext(old(currentSong), playlist), CanGoNext(currentSong, playlist));
      if digits == [] then
        && keys.Digits() == digits && resetPlaylistDisplay == old(resetPlaylistDisplay)
        && if w.isPaused && old(currentSong) == Some(w.chosenNodeId) then
             && trace.calls == log0 + [TogglePause] && currentSong == old(currentSong)
             && SlotsKept() && nextSongNeedsRebuilding == old(nextSongNeedsRebuilding)
           else
             && JumpedTo(w)
             && trace.calls == log0 + [UnloadSongA, UnloadSongB, SkipToSong(w.chosenNodeId)] + sig
      else
        && resetPlaylistDisplay && !nextSongNeedsRebuilding && currentSong == w.numberedTarget
        && trace.calls == log0 + [SkipToNumberedSong(Keys.Atoi(digits))] + sig
        && keys.Digits() == []
        && SlotsKept()
    }

    /** handleGoToSong's effect, given the digits typed and the log it started from. */
    twostate predicate GoToEffect(w: GoToOutcome, digits: seq<byte>, log0: seq<Call>)
      requires keys.Valid()
      reads this, trace, keys, keys.digits
    {
      && ControlsKept()
      && if Enqueues(old(view)) then EnqueueEffect(w, old(view) == SearchView, log0) && keys.Digits() == digits
         else PlaylistGoToEffect(w, digits, log0) && RestartKept() && playlist == old(playlist) && lastPlayedId == old(lastPlayedId)
    }

    /** handleGoToSong */
    method HandleGoToSong(w: GoToOutcome)
      requires Valid() && Unique(w.enqueued)
      modifies this`playlist, this`currentSong, this`lastPlayedId, this`startFromTop, trace, this`loadedNextSong,
               this`endOfListReached, this`restart, this`refresh, this`songWasRemoved, this`currentFileIndex,
               this`waitingForNext, this`loadA, this`usingSongDataA, this`switchFiles, this`songToStartFrom,
               this`nextSongNeedsRebuilding, this`resetPlaylistDisplay, keys`digitCount, keys.digits
      ensures Valid()
      ensures GoToEffect(w, old(keys.Digits()), old(trace.calls))
    {
      if view == LibraryView || view == SearchView {
        GoToEnqueue(w);
      } else {
        GoToInList(w);
      }
    }

    method GoToEnqueue(w: GoToOutcome)
      requires Valid() && Unique(w.enqueued) && Enqueues(view)
      modifies this`playlist, this`currentSong, this`lastPlayedId, this`startFromTop, trace, this`loadedNextSong,
               this`endOfListReached, this`restart, this`refresh, this`songWasRemoved, this`currentFileIndex,
               this`waitingForNext, this`loadA, this`usingSongDataA, this`switchFiles, this`songToStartFrom
      ensures Valid()
      ensures GoToEffect(w, old(keys.Digits()), old(trace.calls))
    {
      GoToFromLibrary(w, view == SearchView);
    }

    method GoToInList(w: GoToOutcome)
      requires Valid() && !Enqueues(view)
      modifies trace, this`loadedNextSong, this`nextSongNeedsRebuilding, this`usingSongDataA,
               this`currentFileIndex, this`loadA, this`currentSong, this`songWasRemoved, this`endOfListReached,
               this`resetPlaylistDisplay, keys`digitCount, keys.digits
      ensures Valid()
      ensures GoToEffect(w, old(keys.Digits()), old(trace.calls))
    {
      GoToInPlaylist(w);
    }

    /** The library and search branches of handleGoToSong. */
    method GoToFromLibrary(w: GoToOutcome, fromSearch: bool)
      requires Unique(w.enqueued)
      modifies this`playlist, this`currentSong, this`lastPlayedId, this`startFromTop, trace, this`loadedNextSong,
               this`endOfListReached, this`restart, this`refresh, this`songWasRemoved, this`currentFileIndex,
               this`waitingForNext, this`loadA, this`usingSongDataA, this`switchFiles, this`songToStartFrom
      ensures Unique(playlist)
      ensures EnqueueEffect(w, fromSearch, old(trace.calls))
    {
      var canGoNext := currentSong.Some? && Next(playlist, currentSong.value).Some?;
      RememberAndEnqueue(w, fromSearch);
      ResetAndSignal(canGoNext);
    }

    /** From the library while restarting, remember where to resume; then enqueue the chosen entry. */
    method RememberAndEnqueue(w: GoToOutcome, fromSearch: bool)
      requires Unique(w.enqueued)
      modifies this`playlist, this`currentSong, this`lastPlayedId, this`startFromTop, trace
      ensures playlist == w.enqueued && currentSong == w.currentAfterEnqueue
      ensures Resume(lastPlayedId, startFromTop) ==
              if !fromSearch && old(restart) then RememberLastPlayed(old(lastPlayedId), old(playlist))
              else Resume(old(lastPlayedId), old(startFromTop))
      ensures trace.calls == old(trace.calls) + (if fromSearch then [SetChosenDir] else []) + [EnqueueSongs]
    {
      if !fromSearch && restart {
        RememberLastPlayedSong();
      }
      Enqueue(w, fromSearch);
    }

    /** resetListAfterDequeuingPlayingSong, then the CanGoNext update against the flag sampled before. */
    method ResetAndSignal(canGoNext: bool)
      modifies this`loadedNextSong, this`endOfListReached, this`restart, this`refresh, this`songWasRemoved,
               this`currentFileIndex, this`waitingForNext, this`startFromTop, this`loadA, this`usingSongDataA,
               this`switchFiles, this`songToStartFrom, trace
      ensures DequeueReset(old(trace.calls), old(startFromTop), CanGoNextSignal(canGoNext, CanGoNext(currentSong, playlist)))
    {
      ResetListAfterDequeuingPlayingSong();
      SignalCanGoNext(canGoNext);
    }

    /** The restart bookkeeping of handleGoToSong in the library view. */
    method RememberLastPlayedSong()
      modifies this`lastPlayedId, this`startFromTop
      ensures Resume(lastPlayedId, startFromTop) == RememberLastPlayed(old(lastPlayedId), playlist)
    {
      var lastSong := Find(playlist, lastPlayedId);
      startFromTop := false;
      if lastSong.None? {
        if playlist != [] {
          lastPlayedId := playlist[|playlist| - 1];
        } else {
          lastPlayedId := -1;
          startFromTop := true;
        }
      }
    }

    /** setChosenDir (from the search view) and enqueueSongs, which leaves the playlist and cursor it reports. */
    method Enqueue(w: GoToOutcome, fromSearch: bool)
      requires Unique(w.enqueued)
      modifies this`playlist, this`currentSong, trace
      ensures playlist == w.enqueued && currentSong == w.currentAfterEnqueue
      ensures trace.calls == old(trace.calls) + (if fromSearch then [SetChosenDir] else []) + [EnqueueSongs]
    {
      if fromSearch {
        trace.calls := trace.calls + [SetChosenDir];
      }
      trace.calls := trace.calls + [EnqueueSongs];
      playlist, currentSong := w.enqueued, w.currentAfterEnqueue;
    }

    /** handleGoToSong's MPRIS CanGoNext update: emitted only when the property changed. */
    method SignalCanGoNext(canGoNext: bool)
      modifies trace
      ensures trace.calls == old(trace.calls) + CanGoNextSignal(canGoNext, CanGoNext(currentSong, playlist))
    {
      var couldGoNext := currentSong.Some? && Next(playlist, currentSong.value).Some?;
      if canGoNext != couldGoNext {
        trace.calls := trace.calls + [EmitCanGoNext(couldGoNext)];
      }
    }

    /** The branch of handleGoToSong for the playlist, track and key-binding views. */
    method GoToInPlaylist(w: GoToOutcome)
      requires keys.Valid()
      modifies trace, this`loadedNextSong, this`nextSongNeedsRebuilding, this`usingSongDataA,
               this`currentFileIndex, this`loadA, this`currentSong, this`songWasRemoved, this`endOfListReached,
               this`resetPlaylistDisplay, keys`digitCount, keys.digits
      ensures keys.Valid()
      ensures PlaylistGoToEffect(w, old(keys.Digits()), old(trace.calls))
    {
      var canGoNext := currentSong.Some? && Next(playlist, currentSong.value).Some?;
      if keys.digitCount == 0 {
        if w.isPaused && currentSong.Some? && w.chosenNodeId == currentSong.value {
          trace.calls := trace.calls + [TogglePause];
        } else {
          JumpToChosen(w);
        }
      } else {
        JumpToNumber(w);
      }
      SignalCanGoNext(canGoNext);
    }

    /** Jump to the highlighted song: unload both slots, skip, and pick the slot to play from. */
    method JumpToChosen(w: GoToOutcome)
      modifies this`loadedNextSong, this`nextSongNeedsRebuilding, trace, this`usingSongDataA, this`currentFileIndex,
               this`loadA, this`currentSong, this`songWasRemoved, this`endOfListReached
      ensures JumpedTo(w)
      ensures trace.calls == old(trace.calls) + [UnloadSongA, UnloadSongB, SkipToSong(w.chosenNodeId)]
    {
      var wasEndOfList := endOfListReached;
      PrepareJump();
      trace.calls := trace.calls + [SkipToSong(w.chosenNodeId)];
      currentSong := w.skipTarget;
      SettleSlot(wasEndOfList);
    }

    /** Before the jump: the next song counts as loaded, needs no rebuilding, and both slots are emptied. */
    method PrepareJump()
      modifies this`loadedNextSong, this`nextSongNeedsRebuilding, trace, this`usingSongDataA,
               this`currentFileIndex, this`loadA
      ensures loadedNextSong && !nextSongNeedsRebuilding && SlotsReset()
      ensures trace.calls == old(trace.calls) + [UnloadSongA, UnloadSongB]
    {
      loadedNextSong := true;
      nextSongNeedsRebuilding := false;
      trace.calls := trace.calls + [UnloadSongA, UnloadSongB];
      ResetSlots();
    }

    /** After the jump: a song removed earlier flips the slot, and leaving the end of the list selects slot A. */
    method SettleSlot(wasEndOfList: bool)
      requires !usingSongDataA
      modifies this`usingSongDataA, this`songWasRemoved, this`endOfListReached
      ensures usingSongDataA == (wasEndOfList || (old(songWasRemoved) && currentSong.Some?))
      ensures songWasRemoved == (old(songWasRemoved) && currentSong.None?)
      ensures !endOfListReached
    {
      if songWasRemoved && currentSong.Some? {
        usingSongDataA := !usingSongDataA;
        songWasRemoved := false;
      }
      if wasEndOfList {
        usingSongDataA := true;
      }
      endOfListReached := false;
    }

    /** Skip to the song whose number was typed, and clear the digits. */
    method JumpToNumber(w: GoToOutcome)
      requires keys.Valid()
      modifies this`resetPlaylistDisplay, this`nextSongNeedsRebuilding, trace, this`currentSong,
               keys`digitCount, keys.digits
      ensures keys.Valid() && keys.Digits() == []
      ensures resetPlaylistDisplay && !nextSongNeedsRebuilding && currentSong == w.numberedTarget
      ensures trace.calls == old(trace.calls) + [SkipToNumberedSong(Keys.Atoi(old(keys.Digits())))]
    {
      resetPlaylistDisplay := true;
      var songNumber := keys.ParseDigits();
      keys.ClearDigits();
      nextSongNeedsRebuilding := false;
      trace.calls := trace.calls + [SkipToNumberedSong(songNumber)];
      currentSong := w.numberedTarget;
    }

    /** gotoBeginningOfPlaylist: put the marker in the digit buffer, which handleGoToSong reads as song number zero. */
    method GotoBeginningOfPlaylist(w: GoToOutcome)
      requires Valid() && Unique(w.enqueued)
      modifies this`playlist, this`currentSong, this`lastPlayedId, this`startFromTop, trace, this`loadedNextSong,
               this`endOfListReached, this`restart, this`refresh, this`songWasRemoved, this`currentFileIndex,
               this`waitingForNext, this`loadA, this`usingSongDataA, this`switchFiles, this`songToStartFrom,
               this`nextSongNeedsRebuilding, this`resetPlaylistDisplay, keys`digitCount, keys.digits
      ensures Valid()
      ensures GoToEffect(w, [Keys.BeginningMarker], old(trace.calls))
    {
      keys.MarkBeginning();
      HandleGoToSong(w);
    }

    /** gotoEndOfPlaylist: with digits typed, go to that song; otherwise skip to the last song. */
    twostate predicate EndOfPlaylistEffect(w: GoToOutcome, digits: seq<byte>, log0: seq<Call>)
      requires keys.Valid()
      reads this, trace, keys, keys.digits
    {
      if digits != [] then GoToEffect(w, digits, log0) else SkippedToLast(w, log0)
    }

    /** gotoEndOfPlaylist with no digits typed: skip to the last song, and change nothing else. */
    twostate predicate SkippedToLast(w: GoToOutcome, log0: seq<Call>)
      requires keys.Valid()
      reads this, trace, keys, keys.digits
    {
      && keys.Digits() == []
      && trace.calls == log0 + [SkipToLastSong] && currentSong == w.lastTarget
      && ControlsKept() && SlotsKept() && RestartKept()
      && unchanged(this`playlist, this`lastPlayedId)
      && unchanged(this`nextSongNeedsRebuilding, this`resetPlaylistDisplay)
    }

    /** gotoEndOfPlaylist */
    method GotoEndOfPlaylist(w: GoToOutcome)
      requires Valid() && Unique(w.enqueued)
      modifies this`playlist, this`currentSong, this`lastPlayedId, this`startFromTop, trace, this`loadedNextSong,
               this`endOfListReached, this`restart, this`refresh, this`songWasRemoved, this`currentFileIndex,
               this`waitingForNext, this`loadA, this`usingSongDataA, this`switchFiles, this`songToStartFrom,
               this`nextSongNeedsRebuilding, this`resetPlaylistDisplay, keys`digitCount, keys.digits
      ensures Valid()
      ensures EndOfPlaylistEffect(w, old(keys.Digits()), old(trace.calls))
    {
      if keys.digitCount > 0 {
        HandleGoToSong(w);
      } else {
        trace.calls := trace.calls + [SkipToLastSong];
        currentSong := w.lastTarget;
      }
    }

    // ------------------------------------------------------------- input

    /** handleRemove drops the selected entry; if that was the playing song, playback stops. */
    twostate predicate RemoveEffect(w: InputOutcome, log0: seq<Call>)
      reads this, trace
    {
      && playlist == w.afterRemove && currentSong == w.currentAfterRemove
      && DequeueReset(log0 + [RemoveSelected], old(startFromTop), [])
      && lastPlayedId == old(lastPlayedId) && ControlsKept()
      && unchanged(this`nextSongNeedsRebuilding, this`resetPlaylistDisplay)
    }

    /** handleInput's `default` case: the seek flags are cleared and nothing else changes. */
    twostate predicate UnhandledEffect(log0: seq<Call>)
      reads this, trace
    {
      && !fastForwarding && !rewinding && view == old(view) && trace.calls == log0
      && SlotsKept() && RestartKept()
      && unchanged(this`playlist, this`currentSong, this`lastPlayedId)
      && unchanged(this`nextSongNeedsRebuilding, this`resetPlaylistDisplay)
    }

    /**
     * A case handled outside kew.c: the call is recorded, the view changes
     * only for the view-switching events, and NEXT and PREV ask for the
     * playlist display to be reset. Nothing else changes.
     */
    twostate predicate DelegatedEffect(kind: EventType, w: InputOutcome, log0: seq<Call>)
      reads this, trace
    {
      && trace.calls == log0 + [Dispatch(kind)]
      && view == ViewAfter(kind, w.view, old(view))
      && resetPlaylistDisplay == (old(resetPlaylistDisplay) || IsSkip(kind))
      && unchanged(this`fastForwarding, this`rewinding)
      && SlotsKept() && RestartKept()
      && unchanged(this`playlist, this`currentSong, this`lastPlayedId)
      && unchanged(this`nextSongNeedsRebuilding)
    }

    /**
     * The effect of handleInput's switch on an event of type `kind`, given the
     * digits held when it ran and the log it started from. Only the go-to
     * cases touch the digit buffer.
     */
    twostate predicate InputEffect(kind: EventType, w: InputOutcome, digits: seq<byte>, log0: seq<Call>)
      requires keys.Valid()
      reads this, trace, keys, keys.digits
    {
      if GoesTo(kind) then
        if kind == GOTOENDOFPLAYLIST && digits == [] then SkippedToLast(w.goTo, log0)
        else GoToEffect(w.goTo, if kind == GOTOBEGINNINGOFPLAYLIST then [Keys.BeginningMarker] else digits, log0)
      else if kind == REMOVE then RemoveEffect(w, log0) && keys.Digits() == digits
      else if Unhandled(kind) then UnhandledEffect(log0) && keys.Digits() == digits
      else DelegatedEffect(kind, w, log0) && keys.Digits() == digits
    }

    /**
     * handleInput: decode the key read this tick (Keys.Decode), make its edit
     * to the search text, and run the case for its event.
     */
    method HandleInput(input: Option<seq<Common.byte>>, table: seq<Keys.KeyMapping>, c: Keys.ConfirmKeys, now: int, w: InputOutcome)
      requires Valid() && Keys.InputOk(input) && Keys.TableOk(table) && InputOk(w)
      modifies this`playlist, this`currentSong, this`lastPlayedId, this`startFromTop, trace, this`loadedNextSong,
               this`endOfListReached, this`restart, this`refresh, this`songWasRemoved, this`currentFileIndex,
               this`waitingForNext, this`loadA, this`usingSongDataA, this`switchFiles, this`songToStartFrom,
               this`nextSongNeedsRebuilding, this`resetPlaylistDisplay, this`view, this`fastForwarding, this`rewinding,
               keys, keys.digits
      ensures Valid()
      ensures var r := Keys.Decode(old(keys.Abstract()), input, old(view), table, c, now);
        && keys.gPressed == r.state.gPressed && keys.lastInputTime == r.state.lastInputTime
        && InputEffect(r.event.kind, w, r.state.digits, old(trace.calls) + EditCalls(r.edit))
    {
      var kind, r := DecodeKey(input, table, c, now);
      DispatchEvent(kind, w);
    }

    /** processInput, with its edit to the search text recorded. */
    method DecodeKey(input: Option<seq<Common.byte>>, table: seq<Keys.KeyMapping>, c: Keys.ConfirmKeys, now: int)
      returns (kind: EventType, ghost r: Keys.DecodeResult)
      requires Valid() && Keys.InputOk(input) && Keys.TableOk(table)
      modifies trace, keys, keys.digits
      ensures Valid() && keys.digits == old(keys.digits)
      ensures r == Keys.Decode(old(keys.Abstract()), input, view, table, c, now)
      ensures kind == r.event.kind && keys.Abstract() == r.state && trace.calls == old(trace.calls) + EditCalls(r.edit)
    {
      var event, edit := keys.ProcessInput(input, view, table, c, now);
      r := Keys.DecodeResult(event, edit, keys.Abstract());
      trace.calls := trace.calls + EditCalls(edit);
      kind := event.kind;
    }

    /** handleInput's switch. */
    method DispatchEvent(kind: EventType, w: InputOutcome)
      requires Valid() && InputOk(w)
      modifies this`playlist, this`currentSong, this`lastPlayedId, this`startFromTop, trace, this`loadedNextSong,
               this`endOfListReached, this`restart, this`refresh, this`songWasRemoved, this`currentFileIndex,
               this`waitingForNext, this`loadA, this`usingSongDataA, this`switchFiles, this`songToStartFrom,
               this`nextSongNeedsRebuilding, this`resetPlaylistDisplay, this`view, this`fastForwarding, this`rewinding,
               keys`digitCount, keys.digits
      ensures Valid() && unchanged(keys`gPressed, keys`lastInputTime)
      ensures InputEffect(kind, w, old(keys.Digits()), old(trace.calls))
    {
      if GoesTo(kind) {
        DispatchGoTo(kind, w);
      } else {
        DispatchOther(kind, w);
      }
    }

    /** The cases of handleInput's switch that go to a song. */
    method DispatchGoTo(kind: EventType, w: InputOutcome)
      requires Valid() && Unique(w.goTo.enqueued) && GoesTo(kind)
      modifies this`playlist, this`currentSong, this`lastPlayedId, this`startFromTop, trace, this`loadedNextSong,
               this`endOfListReached, this`restart, this`refresh, this`songWasRemoved, this`currentFileIndex,
               this`waitingForNext, this`loadA, this`usingSongDataA, this`switchFiles, this`songToStartFrom,
               this`nextSongNeedsRebuilding, this`resetPlaylistDisplay, keys`digitCount, keys.digits
      ensures Valid()
      ensures InputEffect(kind, w, old(keys.Digits()), old(trace.calls))
    {
      if kind == GOTOSONG {
        HandleGoToSong(w.goTo);
      } else if kind == GOTOBEGINNINGOFPLAYLIST {
        GotoBeginningOfPlaylist(w.goTo);
      } else {
        GotoEndOfPlaylist(w.goTo);
      }
    }

    /** The other cases of handleInput's switch. */
    method DispatchOther(kind: EventType, w: InputOutcome)
      requires Valid() && Unique(w.afterRemove) && !GoesTo(kind)
      modifies this`playlist, this`currentSong, trace, this`loadedNextSong, this`endOfListReached, this`restart,
               this`refresh, this`songWasRemoved, this`currentFileIndex, this`waitingForNext, this`startFromTop,
               this`loadA, this`usingSongDataA, this`switchFiles, this`songToStartFrom,
               this`resetPlaylistDisplay, this`view, this`fastForwarding, this`rewinding
      ensures Valid()
      ensures InputEffect(kind, w, old(keys.Digits()), old(trace.calls))
    {
      if kind == REMOVE {
        HandleRemove(w);
      } else if Unhandled(kind) {
        ClearSeeking();
      } else {
        Delegate(kind, w);
      }
    }

    /** The `EVENT_REMOVE` case: handleRemove, then resetListAfterDequeuingPlayingSong. */
    method HandleRemove(w: InputOutcome)
      requires Valid() && Unique(w.afterRemove)
      modifies this`playlist, this`currentSong, trace, this`loadedNextSong, this`endOfListReached, this`restart,
               this`refresh, this`songWasRemoved, this`currentFileIndex, this`waitingForNext, this`startFromTop,
               this`loadA, this`usingSongDataA, this`switchFiles, this`songToStartFrom
      ensures Valid()
      ensures RemoveEffect(w, old(trace.calls))
    {
      RemoveSelectedEntry(w);
      ResetListAfterDequeuingPlayingSong();
    }

    /** handleRemove, which reports the playlist and cursor it leaves. */
    method RemoveSelectedEntry(w: InputOutcome)
      modifies this`playlist, this`currentSong, trace
      ensures playlist == w.afterRemove && currentSong == w.currentAfterRemove
      ensures trace.calls == old(trace.calls) + [RemoveSelected]
    {
      trace.calls := trace.calls + [RemoveSelected];
      playlist, currentSong := w.afterRemove, w.currentAfterRemove;
    }

    /** handleInput's `default` case. */
    method ClearSeeking()
      modifies this`fastForwarding, this`rewinding
      ensures UnhandledEffect(old(trace.calls))
    {
      fastForwarding, rewinding := false, false;
    }

    /** The cases handled outside kew.c; NEXT and PREV first ask for the playlist display to be reset. */
    method Delegate(kind: EventType, w: InputOutcome)
      modifies trace, this`resetPlaylistDisplay, this`view
      ensures DelegatedEffect(kind, w, old(trace.calls))
    {
      if IsSkip(kind) {
        resetPlaylistDisplay := true;
      }
      trace.calls := trace.calls + [Dispatch(kind)];
      if SwitchesView(kind) {
        view := w.view;
      }
    }

    // ------------------------------------------------------------- main loop

    /** The fields servicing playback may change keep their values. */
    twostate predicate ServiceKept()
      reads this
    {
      && unchanged(this`songLoading, this`currentSong, this`songToStartFrom, this`startFromTop, this`restart)
      && unchanged(this`waitingForPlaylist, this`waitingForNext, this`songWasRemoved, this`view, this`loadedNextSong)
      && unchanged(this`endOfListReached, this`usingSongDataA, this`currentFileIndex, this`loadA, this`refresh)
      && unchanged(this`nextSong, this`lastNotifiedId, this`songHasErrors, this`clearingErrors, this`tryNextSong)
      && unchanged(this`loadingFirstDecoder, this`skipOutOfOrder)
    }

    /**
     * Servicing playback with a non-empty playlist, from the log `log0`:
     * afterwards no decode error is pending, and a finished song has been
     * replaced with the audio implementation switched last. When nothing
     * needed loading, retrying or advancing, nothing changes.
     */
    twostate predicate QueueServiced(o: TickOutcome, log0: seq<Call>)
      reads this, trace
    {
      && log0 <= trace.calls && !songHasErrors
      && (o.playbackDone ==>
            && |trace.calls| > |log0| && trace.calls[|trace.calls| - 1] == SwitchAudioImplementation
            && !skipOutOfOrder && nextSong.None? && refresh)
      && ((!NeedsLoad(old(skipFromStopped), old(loadedNextSong), old(nextSongNeedsRebuilding), old(endOfListReached))
           && !old(songHasErrors) && !o.playbackDone) ==> ServiceKept() && trace.calls == log0)
    }

    /**
     * What servicing playback does: the main context is drained and the player
     * refreshed; then, with an empty playlist, only the end-of-file flag is
     * reset, and otherwise the queue is serviced (QueueServiced).
     */
    twostate predicate Serviced(o: TickOutcome)
      reads this, trace
    {
      var log := old(trace.calls) + [PumpMainContext, UpdatePlayer];
      if old(playlist) == [] then ServiceKept() && trace.calls == log + [SetEOFNotReached]
      else QueueServiced(o, log)
    }

    /** The serviced half of mainloop_callback. */
    method ServicePlayback(o: TickOutcome)
      modifies this`songLoading, this`currentSong, this`songToStartFrom, this`startFromTop, this`restart,
               this`waitingForPlaylist, this`waitingForNext, this`songWasRemoved, trace,
               this`view, this`loadedNextSong, this`endOfListReached, this`usingSongDataA, this`currentFileIndex,
               this`loadA, this`refresh, this`nextSong, this`lastNotifiedId, this`songHasErrors, this`clearingErrors,
               this`tryNextSong, this`loadingFirstDecoder, this`skipOutOfOrder
      ensures Serviced(o)
    {
      trace.calls := trace.calls + [PumpMainContext, UpdatePlayer];
      if playlist != [] {
        ServiceQueue(o);
      } else {
        trace.calls := trace.calls + [SetEOFNotReached];
      }
    }

    /** The branch for a non-empty playlist: load, retry a failed song, and move on from a finished one. */
    method ServiceQueue(o: TickOutcome)
      modifies this`songLoading, this`currentSong, this`songToStartFrom, this`startFromTop, this`restart,
               this`waitingForPlaylist, this`waitingForNext, this`songWasRemoved, trace,
               this`view, this`loadedNextSong, this`endOfListReached, this`usingSongDataA, this`currentFileIndex,
               this`loadA, this`refresh, this`nextSong, this`lastNotifiedId, this`songHasErrors, this`clearingErrors,
               this`tryNextSong, this`loadingFirstDecoder, this`skipOutOfOrder
      ensures QueueServiced(o, old(trace.calls))
    {
      LoadIfNeeded(o.load);
      RetryIfFailed();
      AdvanceIfDone(o);
    }

    /** mainloop_callback's call of loadAudioData. */
    method LoadIfNeeded(o: LoadOutcome)
      modifies this`songLoading, this`currentSong, this`songToStartFrom, this`startFromTop, this`restart,
               this`waitingForPlaylist, this`waitingForNext, this`songWasRemoved, trace,
               this`view, this`loadedNextSong, this`endOfListReached, this`usingSongDataA, this`currentFileIndex,
               this`loadA, this`refresh, this`nextSong, this`lastNotifiedId
      ensures old(trace.calls) <= trace.calls
      ensures !NeedsLoad(old(skipFromStopped), old(loadedNextSong), old(nextSongNeedsRebuilding), old(endOfListReached)) ==>
        ServiceKept() && unchanged(trace)
      ensures NeedsLoad(old(skipFromStopped), old(loadedNextSong), old(nextSongNeedsRebuilding), old(endOfListReached)) ==>
        && (old(restart) && playlist != [] && (old(waitingForPlaylist) || old(waitingForNext)) ==> Restarted(o))
        && (!old(restart) && old(currentSong).Some? && (nextSongNeedsRebuilding || old(nextSong).None?) && !old(songLoading) ==>
              && LoadedNext(o)
              && unchanged(this`songLoading, this`currentSong, this`songToStartFrom, this`startFromTop, this`restart,
                           this`waitingForPlaylist, this`waitingForNext, this`songWasRemoved, this`view,
                           this`loadedNextSong, this`endOfListReached, this`usingSongDataA, this`currentFileIndex,
                           this`loadA, this`refresh, this`nextSong))
        && (old(restart) && !(playlist != [] && (old(waitingForPlaylist) || old(waitingForNext))) ==> unchanged(this, trace))
        && (!old(restart) && !(old(currentSong).Some? && (nextSongNeedsRebuilding || old(nextSong).None?) && !old(songLoading)) ==>
              unchanged(this, trace))
    {
      if NeedsLoad(skipFromStopped, loadedNextSong, nextSongNeedsRebuilding, endOfListReached) {
        LoadAudioData(o);
      }
    }

    /** mainloop_callback's call of tryLoadNext after a decode error. */
    method RetryIfFailed()
      modifies this`songHasErrors, this`clearingErrors, this`tryNextSong, this`songLoading, this`loadA,
               this`loadingFirstDecoder, trace
      ensures !songHasErrors && old(trace.calls) <= trace.calls
      ensures !old(songHasErrors) ==> ServiceKept() && unchanged(trace)
      ensures old(songHasErrors) ==>
        var t := RetryTarget(playlist, currentSong, old(tryNextSong));
        && tryNextSong == t
        && (t.Some? ==>
              && clearingErrors && songLoading && loadA == !usingSongDataA && !loadingFirstDecoder
              && trace.calls == old(trace.calls) + [LoadSong(t.value, !usingSongDataA)])
        && (t.None? ==>
              && !clearingErrors && songLoading == old(songLoading) && loadA == old(loadA)
              && loadingFirstDecoder == old(loadingFirstDecoder) && trace.calls == old(trace.calls))
    {
      if songHasErrors {
        TryLoadNext();
      }
    }

    /** When playback of the song is done: record the switch time, prepareNextSong, and switch the audio implementation. */
    method AdvanceIfDone(o: TickOutcome)
      modifies this`currentSong, this`skipOutOfOrder, this`nextSong, this`refresh, trace, this`lastNotifiedId,
               this`view, this`loadedNextSong, this`endOfListReached, this`usingSongDataA, this`currentFileIndex,
               this`restart, this`loadA
      ensures old(trace.calls) <= trace.calls
      ensures o.playbackDone ==>
        && |trace.calls| > |old(trace.calls)| && trace.calls[|trace.calls| - 1] == SwitchAudioImplementation
        && !skipOutOfOrder && nextSong.None? && refresh
      ensures o.playbackDone ==>
        && old(trace.calls) + [UpdateLastSongSwitchTime] <= trace.calls
        && currentSong == (if !old(skipOutOfOrder) && !o.advance.repeatEnabled then o.advance.successor else old(currentSong))
      ensures !o.playbackDone ==> ServiceKept() && unchanged(trace)
    {
      if o.playbackDone {
        trace.calls := trace.calls + [UpdateLastSongSwitchTime];
        PrepareNextSong(o.advance);
        trace.calls := trace.calls + [SwitchAudioImplementation];
      }
    }

    /** The step after handleInput: count the tick and service playback when the gate opens. */
    method Tick(o: TickOutcome)
      requires 0 <= updateCounter < UIntRange
      modifies this`songLoading, this`currentSong, this`songToStartFrom, this`startFromTop, this`restart,
               this`waitingForPlaylist, this`waitingForNext, this`songWasRemoved, trace,
               this`view, this`loadedNextSong, this`endOfListReached, this`usingSongDataA, this`currentFileIndex,
               this`loadA, this`refresh, this`nextSong, this`lastNotifiedId, this`songHasErrors, this`clearingErrors,
               this`tryNextSong, this`loadingFirstDecoder, this`skipOutOfOrder, this`updateCounter
      ensures updateCounter == NextCounter(old(updateCounter)) && 0 <= updateCounter < UIntRange
      ensures ShouldService(updateCounter, old(view)) ==> Serviced(o)
      ensures !ShouldService(updateCounter, old(view)) ==> ServiceKept() && unchanged(trace)
    {
      CountTick();
      if ShouldService(updateCounter, view) {
        ServicePlayback(o);
      }
    }

    /** `updateCounter++`. */
    method CountTick()
      requires 0 <= updateCounter < UIntRange
      modifies this`updateCounter
      ensures updateCounter == NextCounter(old(updateCounter)) && 0 <= updateCounter < UIntRange
    {
      updateCounter := NextCounter(updateCounter);
    }

    /**
     * mainloop_callback: handle this tick's input, then count the tick and,
     * every other tick or whenever the search view is shown, service playback.
     */
    method MainloopCallback(input: Option<seq<Common.byte>>, table: seq<Keys.KeyMapping>, c: Keys.ConfirmKeys, now: int, o: TickOutcome)
      requires Valid() && Keys.InputOk(input) && Keys.TableOk(table) && InputOk(o.input)
      modifies this, trace, keys, keys.digits
      ensures Valid() && updateCounter == NextCounter(old(updateCounter))
      ensures var r := Keys.Decode(old(keys.Abstract()), input, old(view), table, c, now);
        keys.gPressed == r.state.gPressed && keys.lastInputTime == r.state.lastInputTime
    {
      HandleInput(input, table, c, now, o.input);
      Tick(o);
    }
  }
}
