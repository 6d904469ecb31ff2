/** The app-level provider of pages/_app.js (`AudioPlayerProvider`): a playlist
    the user edits, a current index and track, transport and volume state, and
    the media element that the provider's effects keep in step with them. */
module AppProvider {
  import opened Values
  import opened Tracks
  import AudioPlayerHook

  /** `prev.filter((_, i) => i !== index)`: the list without the entry at
      `index`; an index outside the list removes nothing. */
  function RemoveAt<T>(s: seq<T>, index: int): (r: seq<T>)
    ensures !(0 <= index < |s|) ==> r == s
    ensures 0 <= index < |s| ==> |r| == |s| - 1 && multiset(r) + multiset{s[index]} == multiset(s)
    ensures 0 <= index < |s| ==> forall k :: 0 <= k < index ==> r[k] == s[k]
    ensures 0 <= index < |s| ==> forall k :: index <= k < |r| ==> r[k] == s[k + 1]
  {
    if 0 <= index < |s| then
      assert s == s[..index] + [s[index]] + s[index + 1..];
      s[..index] + s[index + 1..]
    else s
  }

  /** `[...prev, track]`. */
  lemma AppendKeepsEntries(s: seq<Track>, t: Track)
    ensures |s + [t]| == |s| + 1 && (s + [t])[|s|] == t
    ensures forall k :: 0 <= k < |s| ==> (s + [t])[k] == s[k]
    ensures RemoveAt(s + [t], |s|) == s
  {
  }

  /** The part of the provider's state that removing an entry changes. */
  datatype Selection = Selection(playlist: seq<Track>, currentIndex: int, currentTrack: Option<Track>, isPlaying: bool)

  /** The current track, when there is one, is the playlist entry at the
      current index. */
  predicate Consistent(sel: Selection)
  {
    sel.currentTrack.Some? ==> 0 <= sel.currentIndex < |sel.playlist| && sel.currentTrack == Some(sel.playlist[sel.currentIndex])
  }

  /** `removeFromPlaylist` as the code has it: the new current track is read
      from the list before the removal, an entry before the current one does
      not move the index, and any removal from a one-entry list clears the
      current track. */
  function RemoveAsWritten(sel: Selection, index: int): (r: Selection)
    ensures r.playlist == RemoveAt(sel.playlist, index)
    ensures index == sel.currentIndex && |sel.playlist| > 1 ==>
      r.currentIndex == (if index >= |sel.playlist| - 1 then 0 else index) &&
      r.currentTrack == At(sel.playlist, r.currentIndex) && r.isPlaying == sel.isPlaying
    ensures !(index == sel.currentIndex && |sel.playlist| > 1) && |sel.playlist| == 1 ==>
      r.currentTrack == None && !r.isPlaying && r.currentIndex == sel.currentIndex
  {
    var rest := RemoveAt(sel.playlist, index);
    if index == sel.currentIndex && |sel.playlist| > 1 then
      var newIndex := if index >= |sel.playlist| - 1 then 0 else index;
      sel.(playlist := rest, currentIndex := newIndex, currentTrack := At(sel.playlist, newIndex))
    else if |sel.playlist| == 1 then
      sel.(playlist := rest, currentTrack := None, isPlaying := false)
    else
      sel.(playlist := rest)
  }

  /** Removing the current first entry of [a, b, c] leaves the removed track
      current, now paired with index 0, which holds b. */
  lemma RemoveAsWrittenKeepsRemovedTrack(a: Track, b: Track, c: Track)
    requires a != b && a != c
    ensures var r := RemoveAsWritten(Selection([a, b, c], 0, Some(a), true), 0);
      r.playlist == [b, c] && r.currentTrack == Some(a) && r.currentIndex == 0 &&
      a !in r.playlist && !Consistent(r)
  {
    var r := RemoveAsWritten(Selection([a, b, c], 0, Some(a), true), 0);
    assert r.playlist == [b, c];
  }

  /** Removing the first entry of [a, b, c] while c plays leaves index 2,
      which is past the end of [b, c]. */
  lemma RemoveAsWrittenLeavesIndexPastEnd(a: Track, b: Track, c: Track)
    ensures var r := RemoveAsWritten(Selection([a, b, c], 2, Some(c), true), 0);
      r.playlist == [b, c] && r.currentIndex == 2 && r.currentTrack == Some(c) && !Consistent(r)
  {
    var r := RemoveAsWritten(Selection([a, b, c], 2, Some(c), true), 0);
    assert r.playlist == [b, c];
  }

  /** Removal as intended, branch for branch as the code has it, with two
      corrections: the new current track is read from the list after the
      removal, and removing an entry before the current one shifts the index
      down. Any removal from a one-entry list clears the current track and
      stops playback, as in the code. */
  function Remove(sel: Selection, index: int): (r: Selection)
    ensures r.playlist == RemoveAt(sel.playlist, index)
    ensures Consistent(sel) ==> Consistent(r)
    ensures Consistent(sel) && sel.currentTrack.Some? && index != sel.currentIndex && |sel.playlist| != 1 ==>
      r.currentTrack == sel.currentTrack
    ensures Consistent(sel) && sel.currentTrack.Some? && index == sel.currentIndex && |sel.playlist| > 1 ==>
      r.currentTrack.Some? && r.currentIndex == (if index == |sel.playlist| - 1 then 0 else index)
    ensures |sel.playlist| == 1 ==> r.currentTrack == None && !r.isPlaying && r.currentIndex == sel.currentIndex
  {
    var n := |sel.playlist|;
    var rest := RemoveAt(sel.playlist, index);
    if index == sel.currentIndex && n > 1 then
      var newIndex := if index >= n - 1 then 0 else index;
      sel.(playlist := rest, currentIndex := newIndex, currentTrack := At(rest, newIndex))
    else if n == 1 then
      sel.(playlist := rest, currentTrack := None, isPlaying := false)
    else if 0 <= index < sel.currentIndex then
      sel.(playlist := rest, currentIndex := sel.currentIndex - 1)
    else
      sel.(playlist := rest)
  }

  /** The corrected removal differs from the code as written only in the new
      current track after removing the current entry, and in the index after
      removing an earlier entry. */
  lemma RemoveCorrectsOnlyTrackAndShift(sel: Selection, index: int)
    ensures Remove(sel, index).playlist == RemoveAsWritten(sel, index).playlist
    ensures Remove(sel, index).isPlaying == RemoveAsWritten(sel, index).isPlaying
    ensures !(0 <= index < sel.currentIndex && |sel.playlist| != 1) ==>
      Remove(sel, index).currentIndex == RemoveAsWritten(sel, index).currentIndex
    ensures !(index == sel.currentIndex && |sel.playlist| > 1) ==>
      Remove(sel, index).currentTrack == RemoveAsWritten(sel, index).currentTrack
  {
  }

  /** `AudioPlayerProvider`'s state cells and its media element (`audioElement`,
      created at mount). */
  class Provider {
    var currentTrack: Option<Track>
    var isPlaying: bool
    var currentTime: real
    var duration: real
    var volume: real
    var isMuted: bool
    var isShuffled: bool
    var repeatMode: Repeat
    var playlist: seq<Track>
    var currentIndex: int
    var isFullscreen: bool
    var src: string
    var elementVolume: real
    var elementTime: real

    /** What the provider's effects maintain: the element plays the current
        track's url, at volume 0 while muted and at the stored volume otherwise. */
    ghost predicate Valid()
      reads this
    {
      elementVolume == EffectiveVolume(volume, isMuted) &&
      (currentTrack.Some? ==> src == currentTrack.value.url)
    }

    constructor ()
      ensures Valid() && currentTrack == None && !isPlaying && currentTime == 0.0 && duration == 0.0
      ensures volume == 1.0 && !isMuted && !isShuffled && repeatMode == Off && playlist == []
      ensures currentIndex == 0 && !isFullscreen && src == [] && elementTime == 0.0
    {
      currentTrack, isPlaying, currentTime, duration := None, false, 0.0, 0.0;
      volume, isMuted, isShuffled, repeatMode := 1.0, false, false, Off;
      playlist, currentIndex, isFullscreen := [], 0, false;
      src, elementVolume, elementTime := [], 1.0, 0.0;
    }

    /** The effect on `[currentTrack, audioElement]`: a new track is loaded
        into the element at the effective volume. */
    method LoadCurrentTrack()
      modifies this`src, this`elementVolume
      ensures currentTrack.Some? ==> src == currentTrack.value.url && elementVolume == EffectiveVolume(volume, isMuted)
      ensures currentTrack.None? ==> src == old(src) && elementVolume == old(elementVolume)
    {
      if currentTrack.Some? {
        src := currentTrack.value.url;
        elementVolume := EffectiveVolume(volume, isMuted);
      }
    }

    /** `playTrack(track, index = 0)`. */
    method PlayTrack(track: Track, index: int)
      requires Valid()
      modifies this`currentTrack, this`currentIndex, this`isPlaying, this`src, this`elementVolume
      ensures Valid()
      ensures currentTrack == Some(track) && currentIndex == index && isPlaying && src == track.url
    {
      currentTrack := Some(track);
      currentIndex := index;
      isPlaying := true;
      LoadCurrentTrack();
    }

    /** `togglePlay`. */
    method TogglePlay()
      modifies this`isPlaying
      ensures isPlaying == !old(isPlaying)
    {
      isPlaying := !isPlaying;
    }

    /** `playNext`: nothing on an empty playlist; otherwise the next index
        (the same rule as hooks/useAudioPlayer.js) and playback on. */
    method PlayNext(r: UnitReal)
      requires Valid()
      modifies this`currentTrack, this`currentIndex, this`isPlaying, this`src, this`elementVolume
      ensures Valid()
      ensures |playlist| == 0 ==> unchanged(this)
      ensures |playlist| > 0 ==> (isPlaying &&
        currentIndex == AudioPlayerHook.NextIndex(old(currentIndex), |playlist|, isShuffled, r) &&
        currentTrack == At(playlist, currentIndex))
      ensures |playlist| > 0 && (isShuffled || old(currentIndex) >= -1) ==>
        0 <= currentIndex < |playlist| && currentTrack == Some(playlist[currentIndex])
    {
      if |playlist| == 0 {
        return;
      }
      var next := AudioPlayerHook.NextIndex(currentIndex, |playlist|, isShuffled, r);
      currentIndex := next;
      currentTrack := At(playlist, next);
      isPlaying := true;
      LoadCurrentTrack();
    }

    /** `playPrevious`: index 0 wraps to the last entry. */
    method PlayPrevious(r: UnitReal)
      requires Valid()
      modifies this`currentTrack, this`currentIndex, this`isPlaying, this`src, this`elementVolume
      ensures Valid()
      ensures |playlist| == 0 ==> unchanged(this)
      ensures |playlist| > 0 ==> (isPlaying &&
        currentIndex == AudioPlayerHook.PreviousIndex(old(currentIndex), |playlist|, isShuffled, r) &&
        currentTrack == At(playlist, currentIndex))
      ensures |playlist| > 0 && (isShuffled || 0 <= old(currentIndex) <= |playlist|) ==>
        0 <= currentIndex < |playlist| && currentTrack == Some(playlist[currentIndex])
    {
      if |playlist| == 0 {
        return;
      }
      var prev := AudioPlayerHook.PreviousIndex(currentIndex, |playlist|, isShuffled, r);
      currentIndex := prev;
      currentTrack := At(playlist, prev);
      isPlaying := true;
      LoadCurrentTrack();
    }

    /** `seekTo`: the position is taken as given, without a clamp. */
    method SeekTo(time: real)
      modifies this`elementTime, this`currentTime
      ensures elementTime == time && currentTime == time
    {
      elementTime := time;
      currentTime := time;
    }

    /** `setVolume` (the raw state setter) and the volume effect after it. */
    method SetVolume(level: real)
      requires Valid()
      modifies this`volume, this`elementVolume
      ensures Valid() && volume == level
      ensures elementVolume == if isMuted then 0.0 else level
    {
      volume := level;
      elementVolume := EffectiveVolume(volume, isMuted);
    }

    /** `toggleMute` and the volume effect after it: the stored volume is kept. */
    method ToggleMute()
      requires Valid()
      modifies this`isMuted, this`elementVolume
      ensures Valid() && isMuted == !old(isMuted)
      ensures elementVolume == if isMuted then 0.0 else volume
    {
      isMuted := !isMuted;
      elementVolume := EffectiveVolume(volume, isMuted);
    }

    /** `toggleShuffle`. */
    method ToggleShuffle()
      modifies this`isShuffled
      ensures isShuffled == !old(isShuffled)
    {
      isShuffled := !isShuffled;
    }

    /** `toggleRepeat`: this file's cycle is none -> one -> all -> none. */
    method ToggleRepeat()
      modifies this`repeatMode
      ensures repeatMode == NextMode(NoneOneAll, old(repeatMode))
      ensures old(repeatMode) == Off ==> repeatMode == One
    {
      NoneOneAllCycle(repeatMode);
      repeatMode := NextMode(NoneOneAll, repeatMode);
    }

    /** `addToPlaylist`: appends at the end. */
    method AddToPlaylist(track: Track)
      modifies this`playlist
      ensures playlist == old(playlist) + [track]
      ensures forall k :: 0 <= k < |old(playlist)| ==> playlist[k] == old(playlist)[k]
    {
      playlist := playlist + [track];
    }

    /** `removeFromPlaylist`, with the current entry chosen from the list
        after the removal (see RemoveAsWritten for the code's own choice). */
    method RemoveFromPlaylist(index: int)
      requires Valid()
      modifies this`playlist, this`currentIndex, this`currentTrack, this`isPlaying, this`src, this`elementVolume
      ensures Valid()
      ensures Selection(playlist, currentIndex, currentTrack, isPlaying) ==
        Remove(Selection(old(playlist), old(currentIndex), old(currentTrack), old(isPlaying)), index)
    {
      var r := Remove(Selection(playlist, currentIndex, currentTrack, isPlaying), index);
      playlist, currentIndex, currentTrack, isPlaying := r.playlist, r.currentIndex, r.currentTrack, r.isPlaying;
      LoadCurrentTrack();
    }

    /** `setPlaylistTracks`. */
    method SetPlaylistTracks(tracks: seq<Track>)
      modifies this`playlist
      ensures playlist == tracks
    {
      playlist := tracks;
    }

    /** `toggleFullscreen`. */
    method ToggleFullscreen()
      modifies this`isFullscreen
      ensures isFullscreen == !old(isFullscreen)
    {
      isFullscreen := !isFullscreen;
    }

    /** The element's `timeupdate` and `loadedmetadata` events. */
    method OnTimeUpdate(position: real)
      modifies this`currentTime
      ensures currentTime == position
    {
      currentTime := position;
    }

    method OnLoadedMetadata(length: real)
      modifies this`duration
      ensures duration == length
    {
      duration := length;
    }

    /** `handleEnded`: under repeat-one the element restarts from 0; under
        repeat-all, or before the last entry, the next track plays; otherwise
        playback stops. */
    method HandleEnded(r: UnitReal)
      requires Valid()
      modifies this`elementTime, this`currentTrack, this`currentIndex, this`isPlaying, this`src, this`elementVolume
      ensures Valid()
      ensures repeatMode == One ==>
        elementTime == 0.0 && currentTrack == old(currentTrack) && currentIndex == old(currentIndex) &&
        isPlaying == old(isPlaying) && src == old(src) && elementVolume == old(elementVolume)
      ensures repeatMode != One ==> elementTime == old(elementTime)
      ensures repeatMode != One && (repeatMode == All || old(currentIndex) < |playlist| - 1) && |playlist| > 0 ==>
        isPlaying && currentIndex == AudioPlayerHook.NextIndex(old(currentIndex), |playlist|, isShuffled, r) &&
        currentTrack == At(playlist, currentIndex) &&
        (currentTrack.Some? ==> src == currentTrack.value.url)
      ensures repeatMode != One && (repeatMode == All || old(currentIndex) < |playlist| - 1) && |playlist| == 0 ==>
        unchanged(this)
      ensures repeatMode != One && !(repeatMode == All || old(currentIndex) < |playlist| - 1) ==>
        !isPlaying && currentTrack == old(currentTrack) && currentIndex == old(currentIndex) &&
        src == old(src) && elementVolume == old(elementVolume)
    {
      if repeatMode == One {
        elementTime := 0.0;
      } else if repeatMode == All || currentIndex < |playlist| - 1 {
        PlayNext(r);
      } else {
        isPlaying := false;
      }
    }
  }
}
