/** The hook-based player of hooks/useAudioPlayer.js: a playlist with a
    current index, transport flags, clamped volume, seek position and playback
    rate, and the media element whose `src`, `volume`, `currentTime` and
    `playbackRate` the commands assign. */
module AudioPlayerHook {
  import opened Values
  import opened Tracks

  const PlayFailed := "Failed to play audio"
  const LoadFailed := "Failed to load audio"

  /** The index `nextTrack` moves to: a random draw when shuffled, otherwise
      `(currentTrackIndex + 1) % playlist.length` with JavaScript's `%`. */
  function NextIndex(current: int, length: nat, shuffled: bool, r: UnitReal): (i: int)
    requires length > 0
    ensures shuffled || -1 <= current ==> 0 <= i < length
    ensures !shuffled && 0 <= current ==> i == (current + 1) % length
    ensures !shuffled && 0 <= current < length - 1 ==> i == current + 1
  {
    if shuffled then RandomIndex(r, length) else JsRemainder(current + 1, length)
  }

  /** The index `previousTrack` moves to: a random draw when shuffled,
      otherwise the last index from 0 and one less from anywhere else. */
  function PreviousIndex(current: int, length: nat, shuffled: bool, r: UnitReal): (i: int)
    requires length > 0
    ensures shuffled || 0 <= current <= length ==> 0 <= i < length
    ensures !shuffled && 0 <= current < length ==> i == (current - 1 + length) % length
  {
    if shuffled then RandomIndex(r, length)
    else if current == 0 then length - 1
    else current - 1
  }

  /** Unshuffled, previous undoes next and next undoes previous on every
      index of the playlist. */
  lemma NextAndPreviousAreInverse(c: int, length: nat, r: UnitReal)
    requires 0 <= c < length
    ensures PreviousIndex(NextIndex(c, length, false, r), length, false, r) == c
    ensures NextIndex(PreviousIndex(c, length, false, r), length, false, r) == c
  {
  }

  /** `getProgress`: the position as a percentage of the duration, 0 while the
      duration is unknown. */
  function Progress(currentTime: real, duration: real): (p: real)
    ensures duration <= 0.0 ==> p == 0.0
    ensures duration > 0.0 ==> p * duration == currentTime * 100.0
  {
    if duration > 0.0 then currentTime / duration * 100.0 else 0.0
  }

  /** A position within the loaded track is a percentage in [0, 100]. */
  lemma ProgressInRange(currentTime: real, duration: real)
    requires 0.0 <= currentTime <= duration
    ensures 0.0 <= Progress(currentTime, duration) <= 100.0
  {
    if duration > 0.0 {
      var p := Progress(currentTime, duration);
      assert p * duration == currentTime * 100.0;
    }
  }

  /** The hook's state (`useState` cells) and its media element
      (`audioRef.current`, present from mount until `cleanup`). */
  class AudioPlayer {
    var hasAudio: bool
    /** The value last assigned to the element's `src`; None is `undefined`,
        which `loadTrack` assigns for every track without a `src` property. */
    var src: Option<string>
    var elementVolume: real
    var elementTime: real
    var elementRate: real

    var isPlaying: bool
    var currentTime: real
    var duration: real
    var volume: real
    var isMuted: bool
    var isLoading: bool
    var error: Option<string>
    var currentTrack: Option<Track>
    var playlist: seq<Track>
    var currentTrackIndex: int
    var isShuffled: bool
    var repeatMode: Repeat
    var playbackRate: real

    /** The stored volume and rate stay in their clamp ranges, and the element
        plays at the stored rate and at the volume that muting allows. */
    ghost predicate Valid()
      reads this
    {
      0.0 <= volume <= 1.0 && 0.25 <= playbackRate <= 2.0 && 0.0 <= duration &&
      (hasAudio ==> elementVolume == EffectiveVolume(volume, isMuted) && elementRate == playbackRate)
    }

    /** The initial `useState` values, after `initializeAudio` has created the element. */
    constructor ()
      ensures Valid() && hasAudio && src == Some([]) && elementTime == 0.0
      ensures !isPlaying && currentTime == 0.0 && duration == 0.0 && volume == 1.0 && !isMuted
      ensures !isLoading && error == None && currentTrack == None && playlist == []
      ensures currentTrackIndex == 0 && !isShuffled && repeatMode == Off && playbackRate == 1.0
    {
      hasAudio, src, elementVolume, elementTime, elementRate := true, Some([]), 1.0, 0.0, 1.0;
      isPlaying, currentTime, duration, volume, isMuted := false, 0.0, 0.0, 1.0, false;
      isLoading, error, currentTrack, playlist := false, None, None, [];
      currentTrackIndex, isShuffled, repeatMode, playbackRate := 0, false, Off, 1.0;
    }

    /** The effect of `loadTrack(t)` with the element present. */
    ghost predicate Loaded(t: Track)
      reads this
    {
      currentTrack == Some(t) && error == None && isLoading && src == t.src &&
      elementVolume == EffectiveVolume(volume, isMuted) && elementRate == playbackRate
    }

    /** `loadTrack`: nothing without the element or a track. */
    method LoadTrack(track: Option<Track>)
      requires Valid()
      modifies this`currentTrack, this`error, this`isLoading, this`src, this`elementVolume, this`elementRate
      ensures Valid()
      ensures !hasAudio || track.None? ==> unchanged(this)
      ensures hasAudio && track.Some? ==> Loaded(track.value)
    {
      if !hasAudio || track.None? {
        return;
      }
      currentTrack := track;
      error := None;
      isLoading := true;
      src := track.value.src;
      elementVolume := EffectiveVolume(volume, isMuted);
      elementRate := playbackRate;
    }

    /** `play`, with the outcome of the element's play() promise as a parameter. */
    method Play(succeeds: bool)
      modifies this`error, this`isPlaying
      ensures !hasAudio || currentTrack.None? ==> unchanged(this)
      ensures hasAudio && currentTrack.Some? ==>
        isPlaying == succeeds && error == (if succeeds then None else Some(PlayFailed))
    {
      if !hasAudio || currentTrack.None? {
        return;
      }
      error := None;
      if succeeds {
        isPlaying := true;
      } else {
        error := Some(PlayFailed);
        isPlaying := false;
      }
    }

    /** `pause`. */
    method Pause()
      modifies this`isPlaying
      ensures hasAudio ==> !isPlaying
      ensures !hasAudio ==> unchanged(this)
    {
      if hasAudio {
        isPlaying := false;
      }
    }

    /** `togglePlayPause`. */
    method TogglePlayPause(succeeds: bool)
      modifies this`error, this`isPlaying
      ensures hasAudio && old(isPlaying) ==> !isPlaying && error == old(error)
      ensures hasAudio && !old(isPlaying) && currentTrack.Some? ==>
        isPlaying == succeeds && error == (if succeeds then None else Some(PlayFailed))
      ensures hasAudio && !old(isPlaying) && currentTrack.None? ==> unchanged(this)
      ensures !hasAudio ==> unchanged(this)
    {
      if isPlaying {
        Pause();
      } else {
        Play(succeeds);
      }
    }

    /** `seek`: the element's position becomes the target clamped to
        [0, duration], and the state copies it back. */
    method Seek(time: real)
      requires Valid()
      modifies this`elementTime, this`currentTime
      ensures Valid()
      ensures hasAudio ==> elementTime == Clamp(0.0, duration, time) && currentTime == elementTime
      ensures !hasAudio ==> unchanged(this)
    {
      if hasAudio {
        elementTime := Max(0.0, Min(time, duration));
        currentTime := elementTime;
      }
    }

    /** `setVolumeLevel`: stores the clamped volume; the element gets 0 while
        muted, so muting never loses the stored level. */
    method SetVolumeLevel(level: real)
      requires Valid()
      modifies this`volume, this`elementVolume
      ensures Valid()
      ensures volume == Clamp(0.0, 1.0, level)
      ensures !hasAudio ==> elementVolume == old(elementVolume)
    {
      var clamped := Max(0.0, Min(1.0, level));
      volume := clamped;
      if hasAudio {
        elementVolume := if isMuted then 0.0 else clamped;
      }
    }

    /** `toggleMute`: flips the flag and leaves the stored volume alone. */
    method ToggleMute()
      requires Valid()
      modifies this`isMuted, this`elementVolume
      ensures Valid()
      ensures isMuted == !old(isMuted)
      ensures hasAudio ==> elementVolume == (if isMuted then 0.0 else volume)
      ensures !hasAudio ==> elementVolume == old(elementVolume)
    {
      isMuted := !isMuted;
      if hasAudio {
        elementVolume := if isMuted then 0.0 else volume;
      }
    }

    /** `setPlaybackSpeed`: the rate clamped to [0.25, 2]. */
    method SetPlaybackSpeed(rate: real)
      requires Valid()
      modifies this`playbackRate, this`elementRate
      ensures Valid()
      ensures playbackRate == Clamp(0.25, 2.0, rate)
      ensures !hasAudio ==> elementRate == old(elementRate)
    {
      var clamped := Max(0.25, Min(2.0, rate));
      playbackRate := clamped;
      if hasAudio {
        elementRate := clamped;
      }
    }

    /** `playTrack(track, trackIndex = null)`: the index is taken as given. */
    method PlayTrack(track: Option<Track>, trackIndex: Option<int>)
      requires Valid()
      modifies this`currentTrackIndex, this`currentTrack, this`error, this`isLoading, this`src,
        this`elementVolume, this`elementRate
      ensures Valid()
      ensures currentTrackIndex == if trackIndex.Some? then trackIndex.value else old(currentTrackIndex)
      ensures hasAudio && track.Some? ==> Loaded(track.value)
      ensures !hasAudio || track.None? ==> currentTrack == old(currentTrack) && src == old(src)
    {
      if trackIndex.Some? {
        currentTrackIndex := trackIndex.value;
      }
      LoadTrack(track);
    }

    /** `playTrackAtIndex`: an index outside the playlist changes nothing. */
    method PlayTrackAtIndex(index: int)
      requires Valid()
      modifies this`currentTrackIndex, this`currentTrack, this`error, this`isLoading, this`src,
        this`elementVolume, this`elementRate
      ensures Valid()
      ensures !(0 <= index < |playlist|) ==> unchanged(this)
      ensures 0 <= index < |playlist| ==> currentTrackIndex == index
      ensures 0 <= index < |playlist| && hasAudio ==> Loaded(playlist[index])
      ensures !hasAudio ==> currentTrack == old(currentTrack)
    {
      if |playlist| == 0 || index < 0 || index >= |playlist| {
        return;
      }
      var track := playlist[index];
      currentTrackIndex := index;
      LoadTrack(Some(track));
    }

    /** `nextTrack`: nothing on an empty playlist; otherwise the track at
        NextIndex is loaded (it is not started). */
    method NextTrack(r: UnitReal)
      requires Valid()
      modifies this`currentTrackIndex, this`currentTrack, this`error, this`isLoading, this`src,
        this`elementVolume, this`elementRate
      ensures Valid()
      ensures |playlist| == 0 ==> unchanged(this)
      ensures |playlist| > 0 && (isShuffled || old(currentTrackIndex) >= -1) ==>
        var i := NextIndex(old(currentTrackIndex), |playlist|, isShuffled, r);
        currentTrackIndex == i && (hasAudio ==> Loaded(playlist[i]))
      ensures |playlist| > 0 && !(0 <= NextIndex(old(currentTrackIndex), |playlist|, isShuffled, r) < |playlist|) ==>
        unchanged(this)
    {
      if |playlist| == 0 {
        return;
      }
      var i := NextIndex(currentTrackIndex, |playlist|, isShuffled, r);
      PlayTrackAtIndex(i);
    }

    /** `previousTrack`: nothing on an empty playlist; otherwise the track at
        PreviousIndex is loaded. */
    method PreviousTrack(r: UnitReal)
      requires Valid()
      modifies this`currentTrackIndex, this`currentTrack, this`error, this`isLoading, this`src,
        this`elementVolume, this`elementRate
      ensures Valid()
      ensures |playlist| == 0 ==> unchanged(this)
      ensures |playlist| > 0 && (isShuffled || 0 <= old(currentTrackIndex) <= |playlist|) ==>
        var i := PreviousIndex(old(currentTrackIndex), |playlist|, isShuffled, r);
        currentTrackIndex == i && (hasAudio ==> Loaded(playlist[i]))
      ensures |playlist| > 0 && 0 <= PreviousIndex(old(currentTrackIndex), |playlist|, isShuffled, r) < |playlist| ==>
        var i := PreviousIndex(old(currentTrackIndex), |playlist|, isShuffled, r);
        currentTrackIndex == i && (hasAudio ==> Loaded(playlist[i]))
      ensures |playlist| > 0 && !(0 <= PreviousIndex(old(currentTrackIndex), |playlist|, isShuffled, r) < |playlist|) ==>
        unchanged(this)
    {
      if |playlist| == 0 {
        return;
      }
      var i := PreviousIndex(currentTrackIndex, |playlist|, isShuffled, r);
      PlayTrackAtIndex(i);
    }

    /** `handleTrackEnd`: playback stops; under repeat-one the track restarts
        from 0, otherwise the next track is loaded unless this was the last
        one and repeat is off. */
    method HandleTrackEnd(r: UnitReal, playSucceeds: bool)
      requires Valid()
      modifies this`isPlaying, this`error, this`elementTime, this`currentTime,
        this`currentTrackIndex, this`currentTrack, this`isLoading, this`src,
        this`elementVolume, this`elementRate
      ensures Valid()
      ensures repeatMode == One ==>
        currentTrackIndex == old(currentTrackIndex) && currentTrack == old(currentTrack) &&
        (hasAudio ==> elementTime == 0.0 && currentTime == 0.0) &&
        isPlaying == (hasAudio && currentTrack.Some? && playSucceeds)
      ensures repeatMode == One ==>
        error == (if hasAudio && currentTrack.Some? then (if playSucceeds then None else Some(PlayFailed)) else old(error)) &&
        src == old(src) && isLoading == old(isLoading) &&
        elementVolume == old(elementVolume) && elementRate == old(elementRate)
      ensures repeatMode != One ==> !isPlaying && elementTime == old(elementTime)
      ensures repeatMode != One && !(old(currentTrackIndex) < |playlist| - 1 || repeatMode == All) ==>
        currentTrackIndex == old(currentTrackIndex) && currentTrack == old(currentTrack) && src == old(src) &&
        isLoading == old(isLoading) && error == old(error) &&
        elementVolume == old(elementVolume) && elementRate == old(elementRate) && currentTime == old(currentTime)
      ensures (repeatMode != One && (old(currentTrackIndex) < |playlist| - 1 || repeatMode == All) &&
               |playlist| > 0 && (isShuffled || old(currentTrackIndex) >= -1)) ==>
        var i := NextIndex(old(currentTrackIndex), |playlist|, isShuffled, r);
        currentTrackIndex == i && (hasAudio ==> Loaded(playlist[i]))
    {
      isPlaying := false;
      if repeatMode == One {
        Seek(0.0);
        Play(playSucceeds);
      } else if currentTrackIndex < |playlist| - 1 || repeatMode == All {
        NextTrack(r);
      }
    }

    /** `toggleShuffle`. */
    method ToggleShuffle()
      modifies this`isShuffled
      ensures isShuffled == !old(isShuffled)
    {
      isShuffled := !isShuffled;
    }

    /** `toggleRepeat`: none -> all -> one -> none. */
    method ToggleRepeat()
      modifies this`repeatMode
      ensures repeatMode == NextMode(NoneAllOne, old(repeatMode))
    {
      repeatMode := NextMode(NoneAllOne, repeatMode);
    }

    /** `updatePlaylist`: the first track is loaded only when none is current. */
    method UpdatePlaylist(tracks: seq<Track>)
      requires Valid()
      modifies this`playlist, this`currentTrackIndex, this`currentTrack, this`error, this`isLoading,
        this`src, this`elementVolume, this`elementRate
      ensures Valid()
      ensures playlist == tracks
      ensures |tracks| > 0 && old(currentTrack).None? ==>
        currentTrackIndex == 0 && (hasAudio ==> Loaded(tracks[0]))
      ensures !(|tracks| > 0 && old(currentTrack).None?) ==>
        currentTrackIndex == old(currentTrackIndex) && currentTrack == old(currentTrack) && src == old(src)
    {
      playlist := tracks;
      if |tracks| > 0 && currentTrack.None? {
        currentTrackIndex := 0;
        LoadTrack(Some(tracks[0]));
      }
    }

    /** The element's `loadstart` and `canplay` events. */
    method OnLoadStart()
      modifies this`isLoading
      ensures isLoading
    {
      isLoading := true;
    }

    method OnCanPlay()
      modifies this`isLoading
      ensures !isLoading
    {
      isLoading := false;
    }

    /** The `loadeddata` event: `audio.duration || 0`. The element reports a
        duration that is NaN or not negative. */
    method OnLoadedData(reported: Num)
      requires Valid() && (reported.NaN? || reported.v >= 0.0)
      modifies this`isLoading, this`duration, this`error
      ensures Valid()
      ensures !isLoading && error == None
      ensures duration == if Falsy(reported) then 0.0 else reported.v
    {
      isLoading := false;
      duration := if Falsy(reported) then 0.0 else reported.v;
      error := None;
    }

    /** The `timeupdate` event: `audio.currentTime || 0`. */
    method OnTimeUpdate(position: Num)
      modifies this`currentTime
      ensures currentTime == if Falsy(position) then 0.0 else position.v
    {
      currentTime := if Falsy(position) then 0.0 else position.v;
    }

    /** The `error` event. */
    method OnError()
      modifies this`isLoading, this`error, this`isPlaying
      ensures !isLoading && !isPlaying && error == Some(LoadFailed)
    {
      isLoading := false;
      error := Some(LoadFailed);
      isPlaying := false;
    }

    /** `cleanup`: empties the source and drops the element. */
    method Cleanup()
      requires Valid()
      modifies this`hasAudio, this`src
      ensures Valid() && !hasAudio
      ensures old(hasAudio) ==> src == Some([])
      ensures !old(hasAudio) ==> src == old(src)
    {
      if hasAudio {
        src := Some([]);
        hasAudio := false;
      }
    }
  }
}
