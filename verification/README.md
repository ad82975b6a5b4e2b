# kew control loop, modelled in Dafny

kew is a terminal music player. Its `src/kew.c` holds the player's control
loop. This project models that loop:

- **Key decoding.** `processInput` turns a key sequence into an event. Along
  the way it edits the search text, runs the `gg` chord and the digit
  accumulator for numbered jumps, and applies two cooldowns.
- **Event dispatch.** `handleInput` dispatches the event.
- **Go-to-song family.** `handleGoToSong`, `gotoBeginningOfPlaylist` and
  `gotoEndOfPlaylist` enqueue library or search entries, toggle pause, jump to
  the highlighted song, or jump to a typed song number.
- **Playback bookkeeping.** The functions that keep the playback cursor and
  the two decoder slots consistent:
  - `setEndOfListReached`;
  - `resetListAfterDequeuingPlayingSong`;
  - `loadAudioData`, `tryLoadNext` and `prepareNextSong`;
  - `notifySongSwitch`, `determineSongAndNotify` and `handleSkipFromStopped`;
  - the `mainloop_callback` tick that drives them.
- **Command line.** `removeArgElement` and `handleOptions`.

The model follows the C code's shape:

- **Decoder state.** `Decoder.InputDecoder` is a class. It holds the decoder
  globals, with `digitsPressed` as a byte array.
- **Player state.** `Player.Player` is a class with one field per playback
  global. The playlist is a sequence of node ids, head first.
- **Argument list.** `argv` is an `array<string>` that is shifted in place.
- **Specifications.** Each method is proved against a pure function:
  - `Keys.Decode` for `processInput`;
  - `Playback.PickStart`, `RememberLastPlayed` and `RetryTarget` for the cursor
    decisions;
  - `Args.Strip` and `Args.Passes` for option stripping.
- **Code outside `kew.c`.** Calls into it (enqueueing, skipping, loading,
  MPRIS signals, notifications) are appended to `Trace.calls` in the order
  they are made. What those calls report back arrives as a parameter of the
  method: `GoToOutcome`, `InputOutcome`, `LoadOutcome`, `AdvanceOutcome`,
  `TickOutcome`.
- **Constants.** The constants are kew's own: 9 digits at most, 48 key
  mappings, cooldowns of 500 ms and 100 ms, and a 32-bit unsigned
  `updateCounter`.

Files:

- `common.dfy`: bytes, C strings, views, event types.
- `keys.dfy`: the pure specification of `processInput`, with its lemmas.
- `decoder.dfy`: the decoder globals and `processInput` as a method.
- `playback.dfy`: song ids, the call log, outcomes, cursor decisions, with
  their lemmas.
- `player.dfy`: the playback globals and every playback function of `kew.c`
  as a method.
- `args.dfy`: `removeArgElement` and `handleOptions`.

## Model

| member | source | states |
|---|---|---|
| Keys.FirstMatch | src/kew.c:196-211 | the key-table scan finds the first mapping that equals the sequence, or the sequence minus a leading ESC; no earlier mapping matches, and None means none matches |
| Keys.DigitPrefix | src/kew.c:535 | the run of leading digits `atoi` reads: all digits, followed by a non-digit or the end |
| Keys.AtoiFitsInt | src/kew.c:227-232 | a well-formed accumulator (at most nine digits) parses below 10^9, so the song number always fits a C int |
| Keys.BeginningMarkerParsesAsZero | src/kew.c:552-557 | the marker byte 1 that gotoBeginningOfPlaylist writes makes `atoi` return 0, whatever follows it |
| Keys.AtoiOfDigits | src/kew.c:535 | a buffer of typed digits parses as their decimal value |
| Keys.PushKeepsDigitsOk | src/kew.c:228-232 | appending a digit adds it while fewer than nine are held and otherwise drops it; the buffer stays well formed |
| Keys.ScanKeepsDigitsOk | src/kew.c:236-267 | the multi-digit scan loop never lets the accumulator exceed nine digits |
| Keys.DecodeKeepsDigitsOk | src/kew.c:227-287 | one processInput call keeps the accumulator well formed |
| Keys.ScanDecidesAtFirstByte | src/kew.c:243-265 | at a non-digit byte the scan clears the digits (not a confirm key), resolves GOTOENDOFPLAYLIST (hardEndOfPlaylist) or resolves GOTOSONG (the other confirm keys) |
| Keys.AccumulatorRules | src/kew.c:227-287 | the digit accumulator's rules for one key: digit appended, confirm key keeps the digits and resolves the go-to event, any other key clears them, and every event other than NONE and the go-to events clears them |
| Keys.ChordRules | src/kew.c:213-225 | an unclaimed `g` toggles the flag; unless `g` is also a confirm key, the second `g` yields GOTOBEGINNINGOFPLAYLIST and the first yields no event; any key not starting with `g` clears the flag (lines 289-293) |
| Keys.CooldownRules | src/kew.c:126-130 | next/prev need 500 ms and seek/remove 100 ms since lastInputTime, sampled at entry (gates at 270-280); a suppressed event becomes NONE and keeps the stamp, an accepted one restamps it |
| Keys.NextPrevWithinWindowSuppressed | src/kew.c:270-274 | a second next/prev less than 500 ms after an accepted one is suppressed and the window does not move |
| Keys.UnboundDigitKey | src/kew.c:227-232 | an unbound digit key outside the search view appends to a non-full accumulator and yields no event |
| Keys.TypedNumberThenConfirm | src/kew.c:227-268 | typing 1, 2, 3 then the switch key yields GOTOSONG with "123" held, which parses as 123 |
| Keys.TypedNumberThenOtherKey | src/kew.c:243-255 | typing 1, 2 then an unbound other key forgets the number and yields no event at all (NONE) |
| Decoder.InputDecoder.constructor | src/kew.c:82-85 | the zero-initialised decoder globals: no chord, no digits |
| Decoder.InputDecoder.AppendDigit | src/kew.c:230-231 | `digitsPressed[digitsPressedCount++]` below nine digits: the buffer becomes Push of the old digits |
| Decoder.InputDecoder.ClearDigits | src/kew.c:252-253 | the memset and count reset leave no digits and an all-zero buffer |
| Decoder.InputDecoder.MarkBeginning | src/kew.c:554-556 | the buffer holds exactly the beginning marker |
| Decoder.InputDecoder.ParseDigits | src/kew.c:535 | the loop computes `atoi` of the buffer, Keys.Atoi of the held digits |
| Decoder.InputDecoder.ScanDigits | src/kew.c:236-267 | the scan loop over the key's bytes ends as Keys.Scan says: exhausted, cleared or resolved, with those digits |
| Decoder.InputDecoder.ResolveKey | src/kew.c:178-268 | search edit, key table, chord and digits give the event, chord flag and digits of Keys.PreGate |
| Decoder.InputDecoder.ApplyCooldowns | src/kew.c:270-280 | the two gates compute Keys.Gate: suppress or accept and restamp |
| Decoder.InputDecoder.ProcessInput | src/kew.c:112-296 | the event, search edit and new decoder state are exactly Keys.Decode of the old state; no input yields NONE and changes nothing |
| Playback.NextIsSuccessor | src/kew.c:740-741 | in a playlist of distinct ids, `node->next` of the i-th song is the (i+1)-th, or none after the tail |
| Playback.RestartPriority | src/kew.c:724-753 | the restart pick: the head when waiting for a playlist; else songToStartFrom if still listed; else the successor of the last played song (or itself at the tail); else the current song; when the chosen song is not listed or there is none, the head if startFromTop else the tail, and startFromTop is then false; startFromTop is kept whenever a listed song was found; songToStartFrom is always consumed |
| Playback.RestartPicksListedSong | src/kew.c:718-753 | with a non-empty playlist and a current song that is listed (if there is one), the restart always picks a listed song. The hypothesis on the current song is needed because, when no song was played before, lines 737-743 keep the current song whether it is listed or not, as Playback.RestartPriority states |
| Playback.DequeuedSongRestartsFromTop | src/kew.c:404-445 | after the playing song was dequeued (startFromTop set, no current song, last played id no longer listed), with no pending start song and not waiting for the playlist, the next restart starts at the head and clears startFromTop (lines 746-749) |
| Playback.LibraryEnqueueResumesAtNewSongs | src/kew.c:455-474 | enqueueing from the library while stopped resumes at the first newly added song at the next restart (with lines 737-741) |
| Playback.RetryWalk | src/kew.c:803-806 | k retries after the song at index i try the song k places further, or stop past the tail |
| Playback.RetryStartsOver | src/kew.c:803-806 | once the retries run off the tail, the next one starts again after the current song |
| Playback.ServiceAlternates | src/kew.c:877-880 | outside the search view playback is serviced every other tick, including across the 32-bit wrap; in the search view every tick |
| Player.Player.constructor | src/kew.c:84-88 | the player starts with nothing current or loaded, no pending restart, lastNotifiedId -1, counter 0 and an empty log |
| Player.Player.ResetSlots | src/kew.c:303-307 | the next load goes to slot A from file index 0 |
| Player.Player.MarkRestartPending | src/kew.c:301-313 | nothing preloaded, end of list reached, restart pending, redraw due |
| Player.Player.SetEndOfListReached | src/kew.c:298-314 | library view, no current song, slot A next, restart pending, redraw due; emits NoTrack and playback-stopped and cleans up the device, in that order |
| Player.Player.AwaitRestartFromTop | src/kew.c:430-442 | a removal is recorded and the next restart waits for a song and starts from the top, with no file switch pending |
| Player.Player.ResetListAfterDequeuingPlayingSong | src/kew.c:402-447 | when the last played song is no longer listed and nothing is current, playback stops, both slots are unloaded and a restart from the top is set up (songToStartFrom cleared if the playlist is empty); otherwise nothing changes |
| Player.Player.StopAfterDequeue | src/kew.c:409-446 | the stopping branch: its calls in order and the stopped state |
| Player.Player.NotifySongSwitch | src/kew.c:333-347 | a song with data, no errors and a non-empty title is announced and becomes lastNotifiedId; otherwise nothing happens |
| Player.Player.DetermineSongAndNotify | src/kew.c:350-361 | the current song is announced only if it differs from the last announced one and its slot is not deleted, and an announcement records it as lastNotifiedId |
| Player.Player.LoadAudioData | src/kew.c:716-796 | with a restart pending and a playlist to wait for, the pick is loaded and played, or the end of list is declared on failure; without a restart, a current song with a missing or stale next song and no load in flight gets the next song loaded and is announced; otherwise nothing changes |
| Player.Player.RestartPlayback | src/kew.c:718-789 | the restart branch: the song PickStart chooses, waiting flags cleared, load/device outcome decides between resume and end of list, nothing preloaded |
| Player.Player.PickStartingSong | src/kew.c:724-753 | currentSong, songToStartFrom and startFromTop become PickStart's choice |
| Player.Player.BeginLoading | src/kew.c:755-758 | loading starts, restart cleared, nothing waited for |
| Player.Player.OpenFirstSong | src/kew.c:760-786 | reshuffle if enabled, unload both slots, load the first song, finish loading; on success open the device and resume, on failure declare end of list; nothing preloaded afterwards |
| Player.Player.ForgetNextSong | src/kew.c:784-786 | nothing preloaded and a redraw due |
| Player.Player.LoadNextAndNotify | src/kew.c:791-795 | the next song is loaded and the current one announced once |
| Player.Player.TryLoadNext | src/kew.c:798-819 | the error flag is cleared; the retry target is the successor of the last tried song (or of the current one); if there is one it is loaded into the slot not in use, otherwise clearingErrors drops again |
| Player.Player.LoadRetry | src/kew.c:808-814 | the retry target is loaded into the slot not in use, as a non-first decoder |
| Player.Player.PrepareNextSong | src/kew.c:821-856 | advance to the successor unless the skip was out of order or repeat is on; finish loading, reset time, unload the previous song unless repeating; with no song left quit or declare end of list, otherwise announce the new song |
| Player.Player.AdvanceCursor | src/kew.c:823-830 | the cursor moves to the successor or skipOutOfOrder is cleared |
| Player.Player.FinishPrevious | src/kew.c:832-841 | finish loading and reset the time, unload the previous song unless repeating with a current song; nothing preloaded |
| Player.Player.HandleSkipFromStopped | src/kew.c:858-867 | after a skip from stopped the slot flips and both skip flags clear; otherwise nothing changes |
| Player.Player.HandleGoToSong | src/kew.c:449-550 | in the library and search views the entry is enqueued (library: remember where to resume when restarting) and a dequeued playing song stops playback; elsewhere pause toggles, or the highlighted or numbered song is jumped to; CanGoNext is signalled when it changed |
| Player.Player.GoToEnqueue | src/kew.c:453-492 | the library and search branches of handleGoToSong |
| Player.Player.GoToInList | src/kew.c:493-549 | the playlist-view branch of handleGoToSong, with the CanGoNext signal |
| Player.Player.GoToFromLibrary | src/kew.c:453-478 | remember, enqueue, reset after dequeue, signal CanGoNext (the search branch 479-492 without the resume step) |
| Player.Player.RememberAndEnqueue | src/kew.c:455-474 | with a restart pending in the library the resume point is remembered, then the entry is enqueued (search: the chosen dir is set first) |
| Player.Player.ResetAndSignal | src/kew.c:475-549 | resetListAfterDequeuingPlayingSong followed by the CanGoNext signal |
| Player.Player.RememberLastPlayedSong | src/kew.c:455-470 | lastPlayedId and startFromTop become RememberLastPlayed: kept if still listed, else the tail, else -1 with startFromTop |
| Player.Player.Enqueue | src/kew.c:483-487 | the playlist becomes the enqueued list and the call is logged |
| Player.Player.SignalCanGoNext | src/kew.c:545-549 | CanGoNext is emitted exactly when it changed |
| Player.Player.GoToInPlaylist | src/kew.c:495-542 | no digits: toggle pause on the paused highlighted song, else jump to it; digits: skip to that number and clear them |
| Player.Player.JumpToChosen | src/kew.c:501-530 | both slots reset and the skip done; slot A is used after the end of the list, the slot flips after a removal |
| Player.Player.PrepareJump | src/kew.c:503-512 | next song marked loaded, rebuild cleared, both slots unloaded, slot A next |
| Player.Player.SettleSlot | src/kew.c:514-529 | the slot after the jump and the end-of-list flag cleared |
| Player.Player.JumpToNumber | src/kew.c:532-542 | display reset, digits cleared, skip to `atoi` of the digits |
| Player.Player.GotoBeginningOfPlaylist | src/kew.c:552-557 | handleGoToSong with the beginning marker as the digits, which is song number 0 |
| Player.Player.GotoEndOfPlaylist | src/kew.c:560-569 | with digits typed, handleGoToSong; otherwise skip to the last song and nothing else changes |
| Player.Player.HandleInput | src/kew.c:572-679 | the key is decoded by Keys.Decode, its search edit logged, and the event's case run: go-to cases, remove with dequeue reset, delegated cases, and the default clearing the seek flags |
| Player.Player.DecodeKey | src/kew.c:574 | the decoder's new state and the logged search edit are those of Keys.Decode |
| Player.Player.DispatchEvent | src/kew.c:576-678 | the switch: the effect of the event's case, with the chord flag and input time untouched |
| Player.Player.DispatchGoTo | src/kew.c:578-586 | the three go-to cases |
| Player.Player.DispatchOther | src/kew.c:587-677 | the cases other than go-to |
| Player.Player.HandleRemove | src/kew.c:664-667 | the selected entry is removed and a dequeued playing song stops playback |
| Player.Player.RemoveSelectedEntry | src/kew.c:665 | the playlist and current song after the removal, logged |
| Player.Player.ClearSeeking | src/kew.c:674-677 | the default case clears fast-forward and rewind and changes nothing else |
| Player.Player.Delegate | src/kew.c:587-672 | a case handled outside kew.c is logged; only view events switch the view, and next/prev reset the playlist display |
| Player.Player.ServicePlayback | src/kew.c:882-910 | the main context is drained and the player updated; an empty playlist only resets EOF; otherwise load, retry and advance run in order |
| Player.Player.ServiceQueue | src/kew.c:890-906 | no decode error remains; a finished song is replaced and the audio implementation switched last; with nothing to do nothing changes |
| Player.Player.LoadIfNeeded | src/kew.c:892-895 | loadAudioData runs only when skipping from stopped, nothing is preloaded or the next song is stale, and the end of list is not reached; when it runs, the state is exactly what Player.Player.LoadAudioData states for each of its branches, otherwise nothing changes |
| Player.Player.RetryIfFailed | src/kew.c:897-898 | tryLoadNext runs only after a decode error, and the error flag is clear afterwards; after an error the retry cursor is the retry target and that song is loaded into the slot not in use, or, with no target, nothing is loaded; without an error nothing changes |
| Player.Player.AdvanceIfDone | src/kew.c:900-905 | when playback is done the switch time is recorded first, the current song becomes prepareNextSong's successor (unless the skip was out of order or repeat is on), and the implementation is switched last; otherwise nothing changes |
| Player.Player.Tick | src/kew.c:877-911 | the counter increments modulo 2^32 and playback is serviced when the gate opens; otherwise nothing else changes |
| Player.Player.CountTick | src/kew.c:877 | `updateCounter++` on a 32-bit unsigned int |
| Player.Player.MainloopCallback | src/kew.c:869-913 | input is handled, then the tick: the decoder's chord flag and input time are Keys.Decode's, the counter advances, the invariant holds |
| Args.LastMatch | src/kew.c:1225-1233 | the index each scan leaves in `idx`: the last matching argument, -1 exactly when none matches |
| Args.RemoveAt | src/kew.c:1206-1213 | the list without entry i: earlier entries kept, later ones moved down one |
| Args.Strip | src/kew.c:1225-1235 | one pass removes one argument when the group is mentioned and none otherwise |
| Args.Passes | src/kew.c:1216-1272 | the four passes chained; at most four arguments disappear |
| Args.Settings.Record | src/kew.c:1228-1266 | `--noui` clears uiEnabled, `--nocover` coverEnabled; the quit and exact options set their flags; an absent option leaves its setting |
| Args.RemoveArgElement | src/kew.c:1198-1214 | an index outside [0, argc) changes nothing; otherwise the rest shifts down one, argc drops by one and the old last entry remains past it |
| Args.StripOption | src/kew.c:1225-1235 | the scan loop finds the last match and removes it: the array prefix becomes Strip, `found` tells whether the group was mentioned |
| Args.FindLastMatch | src/kew.c:1225-1233 | the scan loop over `argv[0..argc)` leaves `idx` at the last matching argument, -1 exactly when none matches |
| Args.StripAll | src/kew.c:1225-1272 | the four passes run in order, each on the list the previous one left: the array prefix ends as the chained result and each flag tells whether its group was mentioned in the list its pass saw |
| Args.HandleOptions | src/kew.c:1216-1272 | the array prefix becomes the result of the four passes, and each setting changes exactly when its pass found its option |
| Args.StripRemovesOneMatch | src/kew.c:1225-1235 | a pass lowers the number of matching arguments by exactly one when there is one |
| Args.SoleOptionRemoved | src/kew.c:1225-1235 | an option given once is gone after its pass; given twice, one copy stays in argv |
| Args.StripKeepsOthers | src/kew.c:1206-1213 | a pass removes only the matched argument and keeps the rest in their order (and so as a multiset) |
| Args.UpperCaseOptionMatches | src/kew.c:1228 | matching ignores letter case: `--NoUI` counts as `--noui` |
| Args.ProgramNameIsScanned | src/kew.c:1262-1271 | the scans include `argv[0]` and match inside an argument: an argument `x-e` is taken for `-e` and removed |

## Left out

- Terminal input is not modelled: `isInputAvailable`, `readInputSequence`, the read loop and key-release detection (`src/kew.c:120-172`). ProcessInput receives the assembled key sequence, or `None` for no input or a released key. `flushSeek` on the no-input path is outside kew.c and is not logged.
- The clock is modelled as integer milliseconds. `isCooldownElapsed` computes in floating point from `timespec`; `calcElapsedTime` and the `clock_gettime` stamps of `start_time` are left out.
- Mutexes (`dataSourceMutex`, `playlist.mutex`, `switchMutex`) are left out. The model is sequential.
- Code outside kew.c is not part of this model. Its calls appear in the call log, and its results arrive as outcome parameters. This covers enqueueing, skips, song loading, the audio device, MPRIS, notifications, `isPlaybackDone`, `isPaused`, `isRepeatEnabled`, `isShuffleEnabled` and the deleted-slot test of `determineCurrentSongData`. Nothing ties those outcomes to the playlist; for example, `skipToSong` may land anywhere.
- `findSelectedEntryById` and `findNodeInList` are outside kew.c, and the model takes them to be exact lookups by id (Playback.Find). Each yields the node when the id is listed and NULL otherwise, so `findNodeInList` writes NULL into its out-parameter when the id is not found. Their calls are not logged. Playback.RestartPriority, Playback.RestartPicksListedSong, Player.Player.RememberLastPlayedSong and the orphan test of Player.Player.ResetListAfterDequeuingPlayingSong depend on this reading.
- Code outside kew.c also writes some of kew.c's globals, and the model does not capture those writes. Examples: `nextSong` after `loadNextSong`, `songLoading`, `songHasErrors`, `skipFromStopped`, `currentSong` after the NEXT/PREV skips, and `refresh`. Wherever a contract says a field is unchanged across a logged call to such code, it speaks only of kew.c's own assignments. Player.Player.LoadAudioData therefore does not show `nextSong` being set by the load, and Player.Player.Delegate does not show the skip moving `currentSong`.
- The redraw path is left out: `updatePlayer`, `refreshPlayer` and `resize` (which sets `refresh`). Player.Player.ServicePlayback logs only the `updatePlayer` call.
- The fuzzy search and the search text are represented only by the logged edit.
- `c_strcasestr` is not part of this model. It is taken to be an ASCII case-insensitive substring test.
- Args.HandleOptions writes the settings once, after the four passes, rather than inside each scan loop. The passes only read `argv`, so the final state is the same.
- `exactSearch`, a global in kew.c, sits in Args.Settings beside the three UI settings.
- handleSkipFromStopped is not called from kew.c. Player.Player.HandleSkipFromStopped is modelled on its own, and the main loop only reads `skipFromStopped`.
- Player.Player.MainloopCallback: states the decoder's new chord flag and input time and the counter step. It does not combine HandleInput's and Tick's effects in one postcondition: the view that gates servicing is the one after the input was handled. The two halves are stated separately by Player.Player.HandleInput and Player.Player.Tick.
- Player.Player.ServicePlayback: for a non-empty playlist it states that the error flag is clear, what a finished song leaves, and that nothing changes when no step runs. It does not compose the full state after a load followed by a retry and an advance; each of those steps is stated exactly by Player.Player.LoadAudioData, Player.Player.TryLoadNext and Player.Player.PrepareNextSong.
- Player.Player.ServiceQueue: weaker for the same reason as Player.Player.ServicePlayback. It states that the log grows, that the error flag is clear, what a finished song leaves, and the no-op case.
- Player.Player.Tick: weaker for the same reason as Player.Player.ServicePlayback.
- The digit buffer's length `MAX_SEQ_LEN` is defined in a header that is not part of this model. It is a constructor parameter, required to exceed nine.
