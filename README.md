# mp3-player-app in Dafny

This project models the playback logic of a browser mp3 player written in
React. The application re-implements its player several times, each with
slightly different rules. Each implementation is modelled on its own:

- the reducer-based player (`context/PlayerContext.js`);
- the hook-based player (`hooks/useAudioPlayer.js`);
- the app-level provider (`pages/_app.js`);
- the home, player and library pages (`pages/index.js`, `pages/player.js`,
  `pages/library.js`).

Around them sit the pure helpers:

- the spectrum averages of `hooks/useAudioVisualizer.js`;
- the list helpers of `components/TrackList.js`;
- the seek-bar drag state machines of `components/ProgressBar.js` and
  `components/FullPlayer.js`.

Layout, one module per file:

| file | module | models |
|---|---|---|
| `values.dfy` | `Values` | JavaScript values the code relies on: `null`/`undefined` as `Option`, numbers that may be NaN (`Num`), falsiness, `Math.random()` draws (`UnitReal`), bytes, the `Math.max(lo, Math.min(hi, x))` clamp, the truncating `%` on integers |
| `text.dfy` | `Text` | `toString()` of integers, `padStart`, ASCII `toLowerCase`, `includes` |
| `clock.dfy` | `Clock` | the two "m:ss" formatters (plain and "0:00"-guarded) and a parser that reads them back |
| `tracks.dfy` | `Tracks` | the track record, repeat modes, `indexOf`/`findIndex`, the repeat cycles, the like/favourite set toggle, the search test, `filter` |
| `player_context.dfy` | `PlayerContext` | the reducer state, every action, the next/previous index rules, the Fisher-Yates shuffle (on an array, with its loop), and the provider commands |
| `use_audio_player.dfy` | `AudioPlayerHook` | the hook as a class whose fields are its state cells and its media element |
| `app_provider.dfy` | `AppProvider` | `AudioPlayerProvider` as a class, and playlist append/remove |
| `use_audio_visualizer.dfy` | `AudioVisualizer` | band and bar averages over the analyser's bytes, the waveform mapping, and the tap/frame/cleanup state as a class |
| `index_page.dfy` | `HomePage` | the home page's player over its catalog |
| `player_page.dfy` | `PlayerPage` | the player page: track lookup, routes to the next/previous track, seeking, volume |
| `library_page.dfy` | `LibraryPage` | the filter-and-sort effect (a stable insertion sort on an array), play and favourite handlers |
| `track_list.dfy` | `TrackList` | numbering, the row click rule, the footer total and the count labels |
| `progress_bar.dfy` | `ProgressBar` | the cursor clamp, the displayed progress, the drag state machine |
| `full_player.dfy` | `FullPlayer` | click and drag seeking, the volume slider, the mute button, the progress shown |

Conventions:

- Numbers are Dafny `real`s, with `Num` where the code tests for or produces NaN.
- `Math.random()` is a parameter of type `UnitReal`. A shuffle takes a
  `RandomStream`, which gives the k-th draw.
- A media element becomes plain fields (`src`, `elementVolume`, `elementTime`,
  ...) of the class that writes them.
- A `<audio>` event becomes a method (`OnTimeUpdate`, `OnLoadedData`, ...).
- The outcome of an asynchronous `play()` is a boolean parameter.
- The repeat value spelled `'none'` in some files and `'off'` in others is
  `Repeat.Off` everywhere.

Behaviours of the code that the model keeps as they are, though a reader
might expect otherwise:

- A shuffle keeps the numeric `currentIndex`, not the playing track's
  identity (context/PlayerContext.js:94-99). `Reduce` states that the index
  is unchanged.
- The reducer's "previous" at index 0 without repeat-all gives -1, that is,
  no track (context/PlayerContext.js:216-217). The hook's "previous" wraps to
  the last index instead (hooks/useAudioPlayer.js:174).
- The reducer's and the provider's `seekTo` do not clamp the time
  (context/PlayerContext.js:265-270, pages/_app.js:125-130). Only the hook's
  `seek` clamps.
- SET_VOLUME sets `isMuted` exactly when the volume is 0
  (context/PlayerContext.js:81-86).
- The hook's `seek` clamps to [0, duration], so while the duration is still 0
  it seeks to 0 (hooks/useAudioPlayer.js:106-111).
- The hook's `loadTrack` gives the element `track.src`
  (hooks/useAudioPlayer.js:72). The tracks the pages build carry their file in
  `url` and have no `src`, so for them the code assigns `undefined` to the
  element's `src`, which the element stores as the text "undefined" and
  resolves as a relative URL. `Track` has both fields; `src` is `None` on those
  tracks, and the element's `src` being `None` stands for that assignment.

## Model

| member | source | states |
|---|---|---|
| Values.Clamp | hooks/useAudioPlayer.js:114 | the result lies in [lo, hi]; a value inside is kept, a value below gives lo, a value above gives hi |
| Values.ClampIdempotent | hooks/useAudioPlayer.js:131 | clamping an already clamped value changes nothing |
| Values.JsRemainder | hooks/useAudioPlayer.js:161 | `%` agrees with the mathematical remainder on non-negative operands and lies in (-n, 0] on negative ones |
| Values.RandomIndex | hooks/useAudioPlayer.js:159 | `Math.floor(Math.random() * n)` is always an index in [0, n) |
| Values.Zeros | context/PlayerContext.js:23 | `new Array(n).fill(0)` has length n and only zeros |
| Text.NatToString | pages/index.js:167 | decimal notation is non-empty, all digits, and one character long exactly below 10 |
| Text.DigitsValueOfNatToString | pages/index.js:167 | the decimal notation of n reads back as n |
| Text.NatToStringInjective | pages/index.js:167 | distinct numbers get distinct notations |
| Text.PadStart | components/TrackList.js:30 | the result is at least `width` long, ends with the input, and everything before it is the pad character |
| Text.ToLower | pages/index.js:171 | same length, each character lower-cased on its own, no upper-case ASCII letter left |
| Text.ToLowerIdempotent | pages/index.js:171-173 | lower-casing twice is lower-casing once |
| Text.Includes | pages/index.js:171-173 | `includes` holds exactly when the needle occurs at some position |
| Text.IncludesTrivial | pages/index.js:170-174 | the empty query occurs in every string, and a string occurs in itself |
| Clock.FormatTimeOrZero | hooks/useAudioPlayer.js:216-222 | NaN shows "0:00", and a number shows what the plain formatter shows (so 0 shows "0:00" as well) |
| Clock.FormatTime | components/FullPlayer.js:34-38 | NaN prints as "NaN:NaN"; a non-negative time prints as minute digits, ":", and exactly two second digits |
| Clock.FormatTimeWholeSeconds | pages/index.js:164-168 | for t >= 0 the text is floor(t)/60 whole minutes, ":", and floor(t) mod 60 seconds as two digits |
| Clock.FormatTimeRoundTrip | pages/index.js:164-168 | the "m:ss" of a non-negative time reads back as its whole seconds, so no two whole-second times share a text |
| Clock.ParseClockOfFields | pages/index.js:167 | minutes and a two-digit seconds field below 60 read back as 60m + s |
| Clock.FormatVariantsAgreeOnNumbers | components/FullPlayer.js:34-38 | the unguarded formatter of the full player and the guarded one agree on numbers and differ on NaN |
| Tracks.EffectiveVolume | pages/_app.js:62 | the element's volume is 0 while muted and the stored volume otherwise |
| Tracks.IndexOf | context/PlayerContext.js:294 | `indexOf` is the first position holding the mode, and -1 exactly when it is absent |
| Tracks.NextMode | context/PlayerContext.js:293-295 | the next mode is one of the list, and the first one when the current mode is absent |
| Tracks.NoneAllOneCycle | context/PlayerContext.js:292-296 | `['none', 'all', 'one']` cycles none to all, all to one, one to none |
| Tracks.NoneOneAllCycle | pages/_app.js:140-144 | `['none', 'one', 'all']` cycles none to one, one to all, all to none |
| Tracks.RepeatCyclesAreInverse | pages/_app.js:140-144 | both cycles have period 3 and never stay put, and each undoes one step of the other |
| Tracks.At | context/PlayerContext.js:155 | an array read is defined exactly inside the array, and is then the element |
| Tracks.FindIndex | pages/index.js:140 | `findIndex` is the first position with the id, and -1 exactly when no entry has it |
| Tracks.FindIndexOfEntry | pages/index.js:140 | with distinct ids, looking up an entry's id finds its own position |
| Tracks.Toggle | pages/index.js:154-162 | the id's membership flips and every other id's membership is kept |
| Tracks.ToggleTwice | pages/library.js:150-158 | toggling the same id twice restores the set |
| Tracks.EmptyQueryMatches | pages/index.js:170-174 | an empty search matches every track |
| Tracks.MatchesQueryIgnoresCase | pages/index.js:170-174 | the search ignores the query's case, and a track is found by its own title, by its artist and by its album |
| Tracks.Filter | pages/library.js:113-119 | `filter` keeps exactly the elements that pass, no more elements than the input |
| Tracks.FilterAppend | pages/library.js:113-119 | filtering a concatenation is concatenating the filtered parts, so order is kept |
| Tracks.FilterIdempotent | pages/library.js:113-119 | filtering twice with the same test is filtering once |
| Tracks.FilterAll | pages/library.js:113-119 | a test every element passes keeps the whole list |
| PlayerContext.NextTrackIndex | context/PlayerContext.js:191-205 | -1 exactly for an empty queue or, past the end, when not repeating all; 'one' keeps the index; 'all' advances cyclically; otherwise the next index; a valid index stays in [-1, length) |
| PlayerContext.PreviousTrackIndex | context/PlayerContext.js:207-221 | -1 exactly for an empty queue or, before the start, when not repeating all (no clamp to 0); 'one' keeps the index; 'all' steps back cyclically |
| PlayerContext.PreviousUndoesNextUnderRepeatAll | context/PlayerContext.js:191-221 | under 'all', previous undoes next and next undoes previous at every index |
| PlayerContext.PreviousUndoesNextWithoutRepeat | context/PlayerContext.js:191-221 | under 'off', previous undoes next wherever next is not the end |
| PlayerContext.FisherYatesPermutes | context/PlayerContext.js:182-189 | the shuffle's swaps keep the length and the multiset of tracks, whatever the random draws |
| PlayerContext.Shuffle | context/PlayerContext.js:182-189 | `shuffleArray` returns as many entries as it was given |
| PlayerContext.ShufflePermutes | context/PlayerContext.js:182-189 | `shuffleArray` returns a permutation of its input |
| PlayerContext.ShuffleArray | context/PlayerContext.js:182-189 | the loop over a copy returns the shuffle of the input, a permutation of it, and leaves the input array alone |
| PlayerContext.ShuffleInPlace | context/PlayerContext.js:184-187 | the swap loop, run in place on an array, leaves it holding the shuffle of its old contents for the same random draws |
| PlayerContext.StepPermutes | context/PlayerContext.js:186 | one swap of the loop keeps the multiset of tracks |
| PlayerContext.Initial | context/PlayerContext.js:7-29 | the player starts with no track, empty lists and index -1, stopped, unmuted, unshuffled, not repeating, at full volume and normal rate, without an error, and with 64 zero bars |
| PlayerContext.Reduce | context/PlayerContext.js:31-180 | SET_CURRENT_TRACK resets time and duration and clears the error; SET_VOLUME mutes exactly at 0; SET_ERROR stops playing and loading; SET_SHUFFLE keeps the index and shuffles or restores the tracks; NEXT/PREVIOUS use the index rules, read the queue, reset the time, clear the error and change nothing else; RESET keeps tracks and queue only; an unknown action changes nothing; every action keeps the queue a permutation of the tracks |
| PlayerContext.ReduceSetRepeat | context/PlayerContext.js:101-105 | SET_REPEAT sets the repeat mode and leaves every other field as it was |
| PlayerContext.ReduceTransportFields | context/PlayerContext.js:57-112 | PAUSE clears only isPlaying, TOGGLE_MUTE negates only isMuted, SET_PLAYBACK_RATE sets only playbackRate |
| PlayerContext.NavigationKeepsIndexInQueue | context/PlayerContext.js:150-168 | next and previous keep a valid index valid, and the current track is the queue entry at the new index |
| PlayerContext.ShuffleOffRestoresOrder | context/PlayerContext.js:94-99 | shuffling on and then off restores exactly the tracks' order |
| PlayerContext.ReachableQueueIsPermutation | context/PlayerContext.js:31-180 | after any sequence of actions from the initial state, the queue is a permutation of the tracks |
| PlayerContext.PlayerProvider.constructor | context/PlayerContext.js:7-29 | the provider starts in `initialState` |
| PlayerContext.PlayerProvider.SetVolume | context/PlayerContext.js:272-277 | the stored volume is the clamped level, muted exactly at 0; the element gets it when present; nothing else changes |
| PlayerContext.PlayerProvider.SetRepeatMode | context/PlayerContext.js:292-296 | only the repeat mode changes, to the next of none, all, one, and never to itself |
| PlayerContext.PlayerProvider.ToggleShuffle | context/PlayerContext.js:288-290 | the flag flips, the index is kept, the queue is a permutation of the tracks, and turning it off restores their order |
| PlayerContext.PlayerProvider.PlayTrack | context/PlayerContext.js:232-235 | SET_CURRENT_TRACK then SET_LOADING: time and duration 0, loading |
| PlayerContext.PlayerProvider.Play | context/PlayerContext.js:237-248 | without the element nothing; a resolved play unpauses the element, sets playing, clears the error and loading; a rejected one records the error and stops |
| PlayerContext.PlayerProvider.Pause | context/PlayerContext.js:250-255 | with the element, the element is paused and the state stops playing, nothing else changes; without it nothing changes |
| PlayerContext.PlayerProvider.TogglePlay | context/PlayerContext.js:257-263 | when the state says playing it pauses the element and the state; otherwise the whole new state is `play`'s: playing with no error and not loading when the promise resolves, the SET_ERROR state when it is rejected; without the element nothing changes |
| PlayerContext.PlayerProvider.ToggleMute | context/PlayerContext.js:280-286 | with the element, the element's muted flag becomes the negation of the state's flag, and the state's flag flips to match; without it nothing changes |
| PlayerContext.PlayerProvider.SetPlaybackRate | context/PlayerContext.js:307-312 | the state always takes the rate, unclamped; the element takes it only when present |
| PlayerContext.PlayerProvider.SeekTo | context/PlayerContext.js:265-270 | with the element, element and state take the time as given; without it nothing changes |
| PlayerContext.PlayerProvider.NextTrack | context/PlayerContext.js:299-301 | dispatches NEXT_TRACK, and a valid index stays valid |
| PlayerContext.PlayerProvider.PreviousTrack | context/PlayerContext.js:303-305 | dispatches PREVIOUS_TRACK, and a valid index stays valid |
| AudioPlayerHook.NextIndex | hooks/useAudioPlayer.js:154-165 | shuffled, any index in [0, length); otherwise (i + 1) mod length, which is i + 1 before the last index |
| AudioPlayerHook.PreviousIndex | hooks/useAudioPlayer.js:167-178 | shuffled, any index in [0, length); otherwise the previous index, with 0 wrapping to length - 1 |
| AudioPlayerHook.NextAndPreviousAreInverse | hooks/useAudioPlayer.js:154-178 | unshuffled, previous undoes next and next undoes previous |
| AudioPlayerHook.Progress | hooks/useAudioPlayer.js:212-214 | 0 while the duration is not positive; otherwise the percentage of the duration (p * duration == time * 100) |
| AudioPlayerHook.ProgressInRange | hooks/useAudioPlayer.js:212-214 | a position within the track is a percentage in [0, 100] |
| AudioPlayerHook.AudioPlayer.constructor | hooks/useAudioPlayer.js:4-23 | the initial state cells and a fresh element |
| AudioPlayerHook.AudioPlayer.LoadTrack | hooks/useAudioPlayer.js:64-76 | nothing without the element or a track; otherwise current track set, error cleared, loading, and the element gets the track's `src` property (absent on every track the pages build, where `None` stands for assigning `undefined`), the effective volume and the rate |
| AudioPlayerHook.AudioPlayer.Play | hooks/useAudioPlayer.js:78-89 | nothing without the element or a current track; otherwise playing exactly when play() resolves, with the error set otherwise |
| AudioPlayerHook.AudioPlayer.Pause | hooks/useAudioPlayer.js:91-96 | with the element, not playing; without it nothing |
| AudioPlayerHook.AudioPlayer.TogglePlayPause | hooks/useAudioPlayer.js:98-104 | pauses when playing; otherwise plays as `play` does: playing with no error when the promise resolves, not playing with the play error when it is rejected, nothing at all without a current track or the element |
| AudioPlayerHook.AudioPlayer.Seek | hooks/useAudioPlayer.js:106-111 | the position becomes the target clamped to [0, duration], in the element and in the state |
| AudioPlayerHook.AudioPlayer.SetVolumeLevel | hooks/useAudioPlayer.js:113-120 | the stored volume is the clamped level; the element gets 0 while muted |
| AudioPlayerHook.AudioPlayer.ToggleMute | hooks/useAudioPlayer.js:122-128 | the flag flips, the stored volume is kept, the element gets 0 or the stored volume |
| AudioPlayerHook.AudioPlayer.SetPlaybackSpeed | hooks/useAudioPlayer.js:130-137 | the rate is clamped to [0.25, 2] and copied to the element |
| AudioPlayerHook.AudioPlayer.PlayTrack | hooks/useAudioPlayer.js:139-144 | the index is taken as given when passed and kept when null; the track is loaded |
| AudioPlayerHook.AudioPlayer.PlayTrackAtIndex | hooks/useAudioPlayer.js:146-152 | outside [0, length) nothing changes; otherwise the index is set and that entry loaded |
| AudioPlayerHook.AudioPlayer.NextTrack | hooks/useAudioPlayer.js:154-165 | nothing on an empty playlist; otherwise the entry at NextIndex is loaded, and nothing changes when NextIndex falls outside the playlist |
| AudioPlayerHook.AudioPlayer.PreviousTrack | hooks/useAudioPlayer.js:167-178 | nothing on an empty playlist; the entry at PreviousIndex is loaded when that index is in range, and nothing changes when it is not (a kept index past the end of a shrunken playlist) |
| AudioPlayerHook.AudioPlayer.HandleTrackEnd | hooks/useAudioPlayer.js:180-191 | 'one' seeks to 0 and plays again, with `play`'s error and the source, loading flag, volume and rate kept; otherwise playback stops, and it advances exactly when not at the last index or when repeating all, leaving every other field alone when it does not advance |
| AudioPlayerHook.AudioPlayer.ToggleShuffle | hooks/useAudioPlayer.js:193-195 | the flag flips |
| AudioPlayerHook.AudioPlayer.ToggleRepeat | hooks/useAudioPlayer.js:197-202 | the next mode of none, all, one |
| AudioPlayerHook.AudioPlayer.UpdatePlaylist | hooks/useAudioPlayer.js:204-210 | the playlist is replaced, and its first entry is loaded at index 0 exactly when it is non-empty and no track is current |
| AudioPlayerHook.AudioPlayer.OnLoadStart | hooks/useAudioPlayer.js:27 | loading |
| AudioPlayerHook.AudioPlayer.OnCanPlay | hooks/useAudioPlayer.js:40 | not loading |
| AudioPlayerHook.AudioPlayer.OnLoadedData | hooks/useAudioPlayer.js:28-32 | not loading, no error, and the duration is the reported one with NaN as 0 |
| AudioPlayerHook.AudioPlayer.OnTimeUpdate | hooks/useAudioPlayer.js:33 | the position is the element's, with NaN as 0 |
| AudioPlayerHook.AudioPlayer.OnError | hooks/useAudioPlayer.js:35-39 | not loading, not playing, and the load error recorded |
| AudioPlayerHook.AudioPlayer.Cleanup | hooks/useAudioPlayer.js:224-230 | the element's source is emptied and the element dropped |
| AppProvider.RemoveAt | pages/_app.js:152 | out of range the list is unchanged; otherwise it is one shorter, lacks exactly that entry, and keeps the others in order |
| AppProvider.AppendKeepsEntries | pages/_app.js:147-149 | appending puts the track last, keeps every earlier entry, and removing the last entry undoes it |
| AppProvider.RemoveAsWritten | pages/_app.js:151-161 | the code as written: the new current track is read from the list before removal |
| AppProvider.RemoveAsWrittenKeepsRemovedTrack | pages/_app.js:153-156 | removing the playing first entry of three leaves the removed track current: it is no longer in the playlist |
| AppProvider.RemoveAsWrittenLeavesIndexPastEnd | pages/_app.js:151-161 | removing an entry before the playing last one leaves the index past the end of the list |
| AppProvider.Remove | pages/_app.js:151-161 | the corrected removal: the same list; a consistent current track stays consistent; removing another entry from a list of two or more keeps the playing track; removing the current one selects the entry now at that position, or the first after removing the last; any removal from a one-entry list clears the track, stops and keeps the index |
| AppProvider.RemoveCorrectsOnlyTrackAndShift | pages/_app.js:151-161 | the correction agrees with the code as written on the list, on playback, on the index except after an earlier entry is removed, and on the track except after the current entry is removed |
| AppProvider.Provider.constructor | pages/_app.js:16-32 | the initial state cells and a fresh element |
| AppProvider.Provider.LoadCurrentTrack | pages/_app.js:59-67 | a current track's url and the effective volume go to the element |
| AppProvider.Provider.PlayTrack | pages/_app.js:85-89 | the track and index are set, playing, and the element loads the track |
| AppProvider.Provider.TogglePlay | pages/_app.js:91-93 | playing flips |
| AppProvider.Provider.PlayNext | pages/_app.js:95-108 | nothing on an empty playlist; otherwise the next (or a random) index and its entry, and playing |
| AppProvider.Provider.PlayPrevious | pages/_app.js:110-123 | nothing on an empty playlist; otherwise index 0 wraps to the last, others step back, and playing |
| AppProvider.Provider.SeekTo | pages/_app.js:125-130 | element and state take the time as given, without a clamp |
| AppProvider.Provider.SetVolume | pages/_app.js:69-73 | the volume is stored as given and the element gets 0 while muted |
| AppProvider.Provider.ToggleMute | pages/_app.js:132-134 | the flag flips and the element gets 0 or the stored volume |
| AppProvider.Provider.ToggleShuffle | pages/_app.js:136-138 | the flag flips |
| AppProvider.Provider.ToggleRepeat | pages/_app.js:140-145 | the next mode of none, one, all |
| AppProvider.Provider.AddToPlaylist | pages/_app.js:147-149 | the track is appended and the earlier entries are kept |
| AppProvider.Provider.RemoveFromPlaylist | pages/_app.js:151-161 | the state after removal is the corrected Remove of the old one |
| AppProvider.Provider.SetPlaylistTracks | pages/_app.js:163-165 | the playlist is replaced |
| AppProvider.Provider.ToggleFullscreen | pages/_app.js:167-169 | the flag flips |
| AppProvider.Provider.OnTimeUpdate | pages/_app.js:34 | the position is the element's |
| AppProvider.Provider.OnLoadedMetadata | pages/_app.js:35 | the duration is the element's |
| AppProvider.Provider.HandleEnded | pages/_app.js:36-45 | 'one' restarts the element at 0 and keeps the track, source and volume; 'all' or a non-last index plays the NextIndex entry with the element on its url, and changes nothing on an empty playlist; otherwise playback stops with the track and the element kept |
| AudioVisualizer.Sum | hooks/useAudioVisualizer.js:88 | the sum of n bytes lies in [0, 255n] |
| AudioVisualizer.SumAppend | hooks/useAudioVisualizer.js:88 | the sum of a concatenation is the sum of the parts |
| AudioVisualizer.Mean | hooks/useAudioVisualizer.js:87-90 | NaN exactly on an empty slice; otherwise mean times count is the sum, and the mean is in [0, 255] |
| AudioVisualizer.Slice | hooks/useAudioVisualizer.js:117 | `slice` takes the elements of [start, end) that exist, in order |
| AudioVisualizer.AverageFrequency | hooks/useAudioVisualizer.js:87-90 | the sum of all bins over their count, NaN on no bins |
| AudioVisualizer.Bass | hooks/useAudioVisualizer.js:92-96 | the mean of bins [0, 8) |
| AudioVisualizer.Mid | hooks/useAudioVisualizer.js:98-102 | the mean of bins [8, 32), NaN with 8 bins or fewer |
| AudioVisualizer.Treble | hooks/useAudioVisualizer.js:104-108 | the mean of bins [32, 64), NaN with 32 bins or fewer |
| AudioVisualizer.BandsPartitionSpectrum | hooks/useAudioVisualizer.js:87-108 | on the analyser's bins (at least 64; it has 128), the band averages weighted by band width add up to the sum of the first 64 bins, and the overall average covers those plus the bins from 64 on, which no band reports |
| AudioVisualizer.BarValue | hooks/useAudioVisualizer.js:119 | NaN stays NaN; an average of bytes gives a bar in [0.01, 1] |
| AudioVisualizer.Bars | hooks/useAudioVisualizer.js:110-123 | exactly n bars, bar i being the bar of the slice [i*step, i*step+step) with step = floor(length / n) |
| AudioVisualizer.BarsInRange | hooks/useAudioVisualizer.js:110-123 | with no more bars than bins every bar is a number in [0.01, 1] |
| AudioVisualizer.BarsNaNWhenStepIsZero | hooks/useAudioVisualizer.js:111-119 | with more bars than bins the step is 0 and every bar is NaN |
| AudioVisualizer.SliceAverage | hooks/useAudioVisualizer.js:118 | the reduce loop and division compute the slice's mean |
| AudioVisualizer.GetVisualizerBars | hooks/useAudioVisualizer.js:110-123 | the push loop returns exactly the bars of the specification |
| AudioVisualizer.Sample | hooks/useAudioVisualizer.js:157 | a byte maps into [-1, 1), and the byte is 128 times the sample plus 128 |
| AudioVisualizer.Waveform | hooks/useAudioVisualizer.js:150-158 | [] without an analyser; otherwise one sample per byte, in order |
| AudioVisualizer.WaveformRecoversBytes | hooks/useAudioVisualizer.js:157 | every byte is recovered from its sample, so the mapping loses nothing |
| AudioVisualizer.Visualizer.constructor | hooks/useAudioVisualizer.js:4-10 | no refs, 128 zeros, inactive, no tap |
| AudioVisualizer.Visualizer.InitializeAudioContext | hooks/useAudioVisualizer.js:12-46 | nothing without an element or once a context exists, so at most one source tap; success sets every ref and activates; failure deactivates |
| AudioVisualizer.Visualizer.UpdateVisualizerData | hooks/useAudioVisualizer.js:48-57 | without an analyser nothing; otherwise the frame becomes the data, and it reschedules exactly while playing and active |
| AudioVisualizer.Visualizer.StopVisualizer | hooks/useAudioVisualizer.js:75-81 | no pending frame, and the data back to 128 zeros |
| AudioVisualizer.Visualizer.Cleanup | hooks/useAudioVisualizer.js:160-172 | stopped, every ref dropped, inactive, no tap, so a later initialisation may tap again |
| HomePage.NextRepeatIsNoneAllOne | pages/index.js:338 | the button's chain of conditionals is the off, all, one cycle |
| HomePage.NextRepeat | pages/index.js:338 | the repeat button always changes the mode |
| HomePage.FilteredTracks | pages/index.js:170-174 | the shown tracks are catalog entries matching the search, and every matching entry is shown |
| HomePage.EmptySearchShowsAll | pages/index.js:170-174 | an empty search shows the whole catalog in its order |
| HomePage.NextOf | pages/index.js:138-145 | the next track is a catalog entry, and the first one when the current id is not in the catalog |
| HomePage.PreviousOf | pages/index.js:147-152 | none when the current id is not in the catalog (an out-of-range read); otherwise a catalog entry |
| HomePage.PreviousUndoesNext | pages/index.js:138-152 | unshuffled, previous undoes next for every entry of a catalog with distinct ids |
| HomePage.NextOfEntry | pages/index.js:138-145 | unshuffled, next after entry i is entry (i+1) mod n, for a catalog with distinct ids |
| HomePage.PreviousOfEntry | pages/index.js:147-152 | previous before entry i is entry i-1, and entry 0 wraps to the last, for a catalog with distinct ids |
| HomePage.EndOfCatalogWraps | pages/index.js:120-127 | next after the last entry is the first, which is what the end of a track plays even with repeat off |
| HomePage.Home.constructor | pages/index.js:57-68 | the initial state cells |
| HomePage.Home.LoadCurrentTrack | pages/index.js:91-96 | a current track's url and the volume go to the element |
| HomePage.Home.PlayTrack | pages/index.js:129-132 | the track is current and playing |
| HomePage.Home.TogglePlayPause | pages/index.js:134-136 | playing flips |
| HomePage.Home.PlayNext | pages/index.js:138-145 | nothing without a current track; otherwise the next track of the catalog |
| HomePage.Home.PlayPrevious | pages/index.js:147-152 | nothing without a current track; otherwise the previous track, none when the current one is not in the catalog |
| HomePage.Home.HandleTrackEnd | pages/index.js:120-127 | 'one' restarts the element and changes nothing else; 'all' and 'off' both play the next track, leave the element's position alone, and change nothing without a current track |
| HomePage.Home.ToggleLike | pages/index.js:154-162 | the id's membership flips and every other id's is kept |
| HomePage.Home.ToggleShuffle | pages/index.js:316 | the shuffle flag flips |
| HomePage.Home.CycleRepeat | pages/index.js:338 | the next mode of off, all, one, never the same |
| PlayerPage.CurrentTrack | pages/player.js:73 | the sample with the routed id, or the first sample when the id is missing or unknown |
| PlayerPage.CurrentIndex | pages/player.js:190 | the current track's position is found |
| PlayerPage.SkipToNext | pages/player.js:189-193 | with distinct ids, routing to the returned id makes the entry after the current one current, wrapping from the last to the first |
| PlayerPage.SkipToPrevious | pages/player.js:195-199 | with distinct ids, routing to the returned id makes the entry before the current one current, wrapping from the first to the last |
| PlayerPage.SkipNextThenPrevious | pages/player.js:189-199 | with distinct ids, following the next route and then the previous one returns to the current track |
| PlayerPage.SkipPreviousThenNext | pages/player.js:189-199 | with distinct ids, following the previous route and then the next one returns to the current track |
| PlayerPage.ProgressPercent | pages/player.js:236 | 0 while the duration is falsy; otherwise the percentage, in [0, 100] within the track |
| PlayerPage.VolumePercent | pages/player.js:237 | 0 while muted; otherwise the volume as a percentage, in [0, 100] |
| PlayerPage.PlayerView.constructor | pages/player.js:33-39 | the initial state cells |
| PlayerPage.PlayerView.HandleTrackEnd | pages/player.js:178-187 | 'one' restarts the element; 'all' routes to the next track; 'off' stops |
| PlayerPage.PlayerView.HandleSeek | pages/player.js:201-208 | nothing without the element or with a falsy duration; otherwise the unclamped fraction times the duration |
| PlayerPage.PlayerView.HandleVolumeChange | pages/player.js:210-216 | the volume is the clamped fraction, and mute is off |
| PlayerPage.PlayerView.ToggleMute | pages/player.js:218-220 | the flag flips and reaches the element |
| PlayerPage.PlayerView.TogglePlayPause | pages/player.js:163-176 | nothing without the element; otherwise playing flips |
| PlayerPage.PlayerView.ToggleRepeat | pages/player.js:222-227 | the next mode of off, all, one |
| PlayerPage.PlayerView.OnTimeUpdate | pages/player.js:86 | the position is the element's |
| PlayerPage.PlayerView.OnLoadedMetadata | pages/player.js:87 | the duration is the element's |
| LibraryPage.StrCompare | pages/library.js:124 | the comparison is -1, 0 or 1, and 0 exactly on equal strings |
| LibraryPage.StrCompareAntisymmetric | pages/library.js:124 | swapping the operands negates the comparison |
| LibraryPage.StrCompareTransitive | pages/library.js:124 | "not after" is transitive |
| LibraryPage.CompareFlips | pages/library.js:121-136 | for every key, a comparator saying "after" one way allows "before" the other way |
| LibraryPage.PrecedesTransitive | pages/library.js:121-136 | for every key, "may precede" is transitive |
| LibraryPage.CompareMeaning | pages/library.js:121-136 | name, artist, album and duration compare equal exactly when that field is equal; year puts the newer track first; any other key compares everything equal |
| LibraryPage.InsertRightSorted | pages/library.js:121-136 | inserting into a sorted list keeps it sorted |
| LibraryPage.InsertRightPermutes | pages/library.js:121-136 | inserting adds exactly the inserted track |
| LibraryPage.InsertionSortSorted | pages/library.js:121-136 | the reference sort's result is sorted by the key |
| LibraryPage.InsertionSortPermutes | pages/library.js:121-136 | the reference sort's result is a permutation of its input |
| LibraryPage.InsertRightTies | pages/library.js:121-136 | an inserted track goes after every entry that compares equal to it |
| LibraryPage.InsertionSortStable | pages/library.js:121-136 | the sort is stable: for any track t, the entries that compare equal to t keep their input order |
| LibraryPage.UnsortedKeepsOrder | pages/library.js:121-136 | with an unknown key the sort is the identity |
| LibraryPage.InsertionSortIsStableSort | pages/library.js:121-136 | sorted, a permutation, stable, and the identity for an unknown key |
| LibraryPage.DurationSortIsTextual | pages/library.js:131-132 | durations compare as text: "10:00" sorts before "9:59" |
| LibraryPage.SortTracks | pages/library.js:121-136 | the insertion loop over the array leaves it holding `InsertionSort` of what it held, the stable sort whose properties `InsertionSortIsStableSort` states |
| LibraryPage.InsertLast | pages/library.js:121-136 | one insertion step: the prefix through i becomes `InsertRight` of the old prefix and a[i]; the rest is left alone |
| LibraryPage.Visible | pages/library.js:113-119 | the shown tracks are exactly the tracks matching the search and the genre ('all' accepts any) |
| LibraryPage.ApplyFilterAndSort | pages/library.js:112-139 | the displayed list is the stable sort of exactly the matching tracks: sorted by the key, ties in catalog order, catalog order for an unknown key |
| LibraryPage.NothingHiddenAtFirst | pages/library.js:113-119 | with the empty query and genre 'all' every track is shown, in catalog order |
| LibraryPage.FirstDisplay | pages/library.js:112-139 | the filter effect's run once the catalog is loaded, with the initial query, genre and order, shows the whole catalog sorted by name |
| LibraryPage.Library.constructor | pages/library.js:107-139 | the settled state after the mount effects and the re-render: the full list is the catalog, the selects hold their initial values, and the shown list is the catalog sorted by name |
| LibraryPage.Library.Refresh | pages/library.js:112-139 | the displayed list is the stable sort of the matching tracks: a sorted permutation with ties in catalog order |
| LibraryPage.Library.HandlePlayTrack | pages/library.js:141-148 | the current track's card toggles playback; any other switches to it and plays |
| LibraryPage.Library.ToggleFavorite | pages/library.js:150-158 | the id's membership flips and every other id's is kept |
| TrackList.TrackNumber | components/TrackList.js:29-31 | at least two digits, with a leading zero for the first nine rows |
| TrackList.TrackNumberValue | components/TrackList.js:29-31 | the row number reads back as index + 1 |
| TrackList.HandleTrackClick | components/TrackList.js:33-39 | play/pause exactly when the clicked id is the current one; otherwise select that track at its index |
| TrackList.AtMostOneCurrentRow | components/TrackList.js:41-43 | with distinct ids, at most one row is highlighted as the current track |
| TrackList.TotalSeconds | components/TrackList.js:223 | the total is not negative when no duration is, and is 0 when every duration is missing or 0 |
| TrackList.SecondsOrZero | components/TrackList.js:223 | a falsy duration counts as 0 |
| TrackList.TotalSecondsAppend | components/TrackList.js:223 | the total of two lists is the sum of their totals |
| TrackList.TotalSecondsBounds | components/TrackList.js:223 | with no negative durations the total is not negative and bounds each duration |
| TrackList.FooterTotal | components/TrackList.js:223 | the footer shows the formatted total, never NaN since missing durations count as 0 |
| TrackList.CountLabel | components/TrackList.js:73 | singular exactly when the count is 1, the plural otherwise (the footer count at line 220 uses the same rule) |
| ProgressBar.Position | components/ProgressBar.js:35-41 | 0 without a mounted bar; otherwise the cursor percentage clamped to [0, 100] |
| ProgressBar.Progress | components/ProgressBar.js:24 | 0 while the duration is not positive; otherwise the position's percentage of the duration |
| ProgressBar.ProgressInRange | components/ProgressBar.js:24 | a position within the track shows in [0, 100] |
| ProgressBar.SeekTime | components/ProgressBar.js:63 | the seek time is the position's share of the duration |
| ProgressBar.SeekTimeInRange | components/ProgressBar.js:62-63 | a clamped position seeks inside the track |
| ProgressBar.ProgressOfSeekTime | components/ProgressBar.js:24-63 | the progress shown after seeking to a position is that position |
| ProgressBar.DisplayProgress | components/ProgressBar.js:26 | the drag position while dragging, else the progress |
| ProgressBar.Bar.constructor | components/ProgressBar.js:18-19 | not dragging, position 0 |
| ProgressBar.Bar.Display | components/ProgressBar.js:24-26 | what the bar shows is always in [0, 100] |
| ProgressBar.Bar.MouseDown | components/ProgressBar.js:43-49 | ignored when disabled or at duration 0; otherwise a drag starts at the clamped cursor |
| ProgressBar.Bar.MouseMove | components/ProgressBar.js:51-56 | the drag position follows the cursor only while dragging |
| ProgressBar.ReleaseSeek | components/ProgressBar.js:35-65 | the code as written: no seek exactly for a touch release over the mounted bar (the handler throws on the empty touch list); otherwise the release point's share of the duration, inside the track |
| ProgressBar.TouchDragNeverSeeks | components/ProgressBar.js:35-84 | a touch drag over the mounted bar never seeks, wherever the finger is lifted, while a mouse drag does |
| ProgressBar.ReleaseSeekCorrected | components/ProgressBar.js:58-65 | the corrected release: every release seeks to its point's share of the duration, inside the track |
| ProgressBar.CorrectionOnlyAffectsTouch | components/ProgressBar.js:35-65 | the correction differs from the code exactly for a touch release over the mounted bar |
| ProgressBar.Bar.MouseUp | components/ProgressBar.js:58-65 | the drag always ends; a seek happens exactly when a drag was active and the release is not a touch over the mounted bar, and it is the code's ReleaseSeek, inside the track |
| ProgressBar.Bar.Click | components/ProgressBar.js:67-72 | no seek exactly when disabled, at duration 0 or while dragging; otherwise a seek inside the track; no state changes |
| FullPlayer.Renders | components/FullPlayer.js:118 | the full player renders only when open and only with a current track |
| FullPlayer.ClickSeek | components/FullPlayer.js:40-46 | no seek exactly without a mounted bar or with a falsy duration; otherwise the unclamped fraction times the duration |
| FullPlayer.ClickSeekIsUnclamped | components/FullPlayer.js:40-46 | a click past the end of the bar seeks past the end of the track |
| FullPlayer.DragTime | components/FullPlayer.js:48-54 | the drag time lies in [0, duration], the cursor fraction clamped to [0, 1] |
| FullPlayer.SliderVolume | components/FullPlayer.js:68-73 | nothing without a mounted slider; otherwise a volume in [0, 1] |
| FullPlayer.MuteButtonVolume | components/FullPlayer.js:309 | the button sends 0 exactly when the volume is positive and 1 otherwise |
| FullPlayer.MuteButtonTwice | components/FullPlayer.js:309 | two presses give full volume, not the volume before |
| FullPlayer.ProgressPercent | components/FullPlayer.js:90-91 | 0 while the duration is not positive; otherwise the percentage of the drag time while dragging and of the position otherwise |
| FullPlayer.DraggedProgressInRange | components/FullPlayer.js:48-54 | while dragging the bar shows a percentage in [0, 100] |
| FullPlayer.Player.constructor | components/FullPlayer.js:27-28 | not dragging, drag time 0 |
| FullPlayer.Player.MouseDown | components/FullPlayer.js:56-59 | a drag starts and the press seeks as a click does |
| FullPlayer.Player.Drag | components/FullPlayer.js:48-54 | ignored unless dragging over a mounted bar with a truthy duration; otherwise the drag time follows the clamped cursor, within the track |
| FullPlayer.Player.MouseUp | components/FullPlayer.js:61-66 | a seek to the drag time exactly when a drag was active, and the drag ends |
| FullPlayer.DragSession | components/FullPlayer.js:48-66 | a press, a drag and a release seek to the dragged time, within the track |

## Left out

- The Web Audio graph, `<audio>` decoding and canvas drawing are foreign browser APIs. The analyser's output is an input byte sequence. This covers AudioContext, `createMediaElementSource`, `getByteFrequencyData`, and the canvas loops of components/AudioVisualizer.js and pages/player.js.
- `requestAnimationFrame`, `setInterval`, promises and event timing are not modelled. The random visualizer data of pages/_app.js and pages/index.js is left out. A play() promise's outcome is a parameter.
- `startVisualizer` is not modelled: it only sequences `initializeAudioContext`, `resume` and `updateVisualizerData`, which are modelled.
- The effects that register listeners are not modelled, and neither are the stale closures they capture at mount. Handlers are modelled as functions of the current state, so the model does not show the following:
  - `handleEnded` of hooks/useAudioPlayer.js and of pages/_app.js is bound once at mount and sees the initial repeat mode and playlist;
  - the same holds for `handleTrackEnd` of pages/index.js.
- `Math.random()`'s distribution is not modelled. Only the range of each draw is. The shuffle's uniformity is not stated.
- Floating point is not modelled: numbers are exact reals. Rounding, Infinity (from a zero-width bar) and `-0` are left out.
- `getCircularVisualizerData` is not modelled: it uses trigonometry.
- `formatFileSize` is not modelled: its `toFixed` is float string formatting.
- `router.push` is not modelled: `PlayerView.HandleTrackEnd` and `SkipToNext`/`SkipToPrevious` return the id that would be routed to.
- `parseInt(trackId)` is not modelled: the routed id is an `Option<int>`.
- The sample catalogs of the pages are parameters. Their content is static data.
- The play/pause effect of pages/_app.js and pages/index.js (play while `isPlaying`) is not modelled: it only forwards the flag to the element.
- The mini-player, fullscreen and visualizer-data actions of the reducer are modelled only inside `Reduce`. The provider commands `setTracks`, `toggleFullscreen` and `toggleMiniPlayer` only dispatch one action each, so `Reduce` covers them.
- LibraryPage.StrCompare: `localeCompare` is approximated by code-unit lexicographic order, because locale collation tables are outside the model.
- Text.ToLower: `toLowerCase` covers ASCII letters only, because Unicode case mapping is outside the model.
- LibraryPage.SortTracks: the engine's sort algorithm is not modelled; a stable insertion sort stands in for it. `Array.prototype.sort` is stable, and for a consistent comparator a stable sort's result is unique, so both give the same order.
- AudioPlayerHook.AudioPlayer.OnLoadedData: requires the reported duration to be NaN or non-negative, which is what a media element reports. The stored duration is then never negative.
- ProgressBar.Position, ProgressBar.Bar.MouseMove: a touch position is read from `touches[0]`, which in a multi-touch gesture need not be the finger that started the drag; the model takes the cursor position as given. The document listeners installed when a drag starts (components/ProgressBar.js:74-93) keep the `duration` of that render, which the model does not distinguish from the current one.
- ProgressBar.Bar.MouseUp: follows the code as written (`ReleaseSeek`), so a touch release over the mounted bar does not seek. The correction is `ReleaseSeekCorrected` (see Findings).
- AppProvider.Provider.RemoveFromPlaylist: follows the corrected `Remove`, not the code as written. The code as written is `RemoveAsWritten` (see Findings).
- PlayerContext.PlayerProvider: `initializeAudioContext` and the visualizer loop of context/PlayerContext.js are not modelled: they are Web Audio calls.
- FullPlayer: the random fallback heights of its `Visualizer` (`Math.random() * 0.5 + 0.1`) are not modelled, and neither is the like button's local flag.

## Findings

| source | as written | input that shows it | evidently intended | confidence | as-written member | corrected member |
|---|---|---|---|---|---|---|
| pages/_app.js:151-161 | `removeFromPlaylist` reads the new current track from the playlist before removal. It also leaves `currentIndex` alone when an earlier entry is removed. | Playlist [a, b, c] with a playing: removing index 0 keeps a as the current track, though it is gone from [b, c]. With c playing at index 2, removing index 0 leaves the index at 2, past the end of [b, c]. | The current track is the entry at the new current index, read from the list after removal, and an earlier removal shifts the index down by one. Everything else stays as written, including clearing the track on any removal from a one-entry list. | not executed | AppProvider.RemoveAsWritten (AppProvider.RemoveAsWrittenKeepsRemovedTrack, AppProvider.RemoveAsWrittenLeavesIndexPastEnd) | AppProvider.Remove |
| components/ProgressBar.js:58-65 | `handleMouseUp` also serves `touchend`, and `getPositionFromEvent` reads `event.touches[0]` for touch events. A `touchend` event's `touches` list no longer holds the lifted finger. | A touch drag on the mounted bar: on `touchend`, `event.touches` is empty, so reading `touches[0].clientX` throws. The drag ends, but `onSeek` is never called. | Lifting the finger seeks to where it was lifted (`changedTouches[0]`), as a mouse release does. | not executed | ProgressBar.ReleaseSeek (ProgressBar.TouchDragNeverSeeks) | ProgressBar.ReleaseSeekCorrected |
