/** The full-screen player page of pages/player.js: the track named by the
    `trackId` query parameter, navigation by route to the neighbouring
    catalog entries, and the page's own end-of-track, seek and volume rules. */
module PlayerPage {
  import opened Values
  import opened Tracks

  /** `sampleTracks.find(t => t.id === parseInt(trackId)) || sampleTracks[0]`;
      a parameter that does not parse is None. */
  function CurrentTrack(catalog: seq<Track>, trackId: Option<int>): (t: Track)
    requires |catalog| > 0
    ensures t in catalog
    ensures trackId.Some? && FindIndex(catalog, trackId.value) >= 0 ==> t.id == trackId.value
    ensures trackId.None? || FindIndex(catalog, trackId.value) == -1 ==> t == catalog[0]
  {
    if trackId.None? then catalog[0]
    else
      var i := FindIndex(catalog, trackId.value);
      if i == -1 then catalog[0] else catalog[i]
  }

  /** The position of the current track: it is a catalog entry, so found. */
  function CurrentIndex(catalog: seq<Track>, trackId: Option<int>): (i: nat)
    requires |catalog| > 0
    ensures i < |catalog| && catalog[i].id == CurrentTrack(catalog, trackId).id
  {
    var t := CurrentTrack(catalog, trackId);
    var i := FindIndex(catalog, t.id);
    assert i >= 0 by {
      var k :| 0 <= k < |catalog| && catalog[k] == t;
      assert catalog[k].id == t.id;
    }
    i
  }

  /** `skipToNext`: the id it routes to, `(currentIndex + 1) % length`. */
  function SkipToNext(catalog: seq<Track>, trackId: Option<int>): (id: int)
    requires |catalog| > 0
    ensures DistinctIds(catalog) ==>
      CurrentIndex(catalog, Some(id)) == (CurrentIndex(catalog, trackId) + 1) % |catalog|
  {
    var k := (CurrentIndex(catalog, trackId) + 1) % |catalog|;
    if DistinctIds(catalog) then
      CurrentIndexOfEntry(catalog, k);
      catalog[k].id
    else catalog[k].id
  }

  /** `skipToPrevious`: the id it routes to; position 0 wraps to the last. */
  function SkipToPrevious(catalog: seq<Track>, trackId: Option<int>): (id: int)
    requires |catalog| > 0
    ensures DistinctIds(catalog) ==>
      var i := CurrentIndex(catalog, trackId);
      CurrentIndex(catalog, Some(id)) == if i == 0 then |catalog| - 1 else i - 1
  {
    var i := CurrentIndex(catalog, trackId);
    var k := if i == 0 then |catalog| - 1 else i - 1;
    if DistinctIds(catalog) then
      CurrentIndexOfEntry(catalog, k);
      catalog[k].id
    else catalog[k].id
  }

  /** With distinct ids, routing to an entry's id makes it current. */
  lemma CurrentIndexOfEntry(catalog: seq<Track>, k: int)
    requires DistinctIds(catalog) && 0 <= k < |catalog|
    ensures CurrentIndex(catalog, Some(catalog[k].id)) == k
  {
    FindIndexOfEntry(catalog, k);
    assert CurrentTrack(catalog, Some(catalog[k].id)) == catalog[k];
  }

  /** Following the next route and then the previous one comes back to the
      same track, when the catalog's ids are distinct. */
  lemma SkipNextThenPrevious(catalog: seq<Track>, trackId: Option<int>)
    requires |catalog| > 0 && DistinctIds(catalog)
    ensures SkipToPrevious(catalog, Some(SkipToNext(catalog, trackId))) == CurrentTrack(catalog, trackId).id
  {
    var n := |catalog|;
    var i := CurrentIndex(catalog, trackId);
    var next := (i + 1) % n;
    Successor(i, n);
    assert SkipToNext(catalog, trackId) == catalog[next].id;
    CurrentIndexOfEntry(catalog, next);
    assert SkipToPrevious(catalog, Some(catalog[next].id)) == catalog[i].id;
  }

  /** `(i + 1) % n` on a position: the next one, or 0 after the last. */
  lemma Successor(i: int, n: int)
    requires 0 <= i < n
    ensures (i + 1) % n == if i + 1 < n then i + 1 else 0
  {
  }

  /** And the other way round. */
  lemma SkipPreviousThenNext(catalog: seq<Track>, trackId: Option<int>)
    requires |catalog| > 0 && DistinctIds(catalog)
    ensures SkipToNext(catalog, Some(SkipToPrevious(catalog, trackId))) == CurrentTrack(catalog, trackId).id
  {
    var n := |catalog|;
    var i := CurrentIndex(catalog, trackId);
    var prev := if i == 0 then n - 1 else i - 1;
    assert SkipToPrevious(catalog, trackId) == catalog[prev].id;
    CurrentIndexOfEntry(catalog, prev);
    Successor(prev, n);
    assert SkipToNext(catalog, Some(catalog[prev].id)) == catalog[i].id;
  }

  /** `progressPercent`: 0 while the duration is falsy (0 or NaN). */
  function ProgressPercent(currentTime: real, duration: Num): (p: real)
    ensures Falsy(duration) ==> p == 0.0
    ensures !Falsy(duration) ==> p * duration.v == currentTime * 100.0
    ensures !Falsy(duration) && 0.0 <= currentTime <= duration.v ==> 0.0 <= p <= 100.0
  {
    if Falsy(duration) then 0.0 else currentTime / duration.v * 100.0
  }

  /** `volumePercent`: 0 while muted. */
  function VolumePercent(volume: real, muted: bool): (p: real)
    ensures muted ==> p == 0.0
    ensures !muted ==> p == volume * 100.0
    ensures 0.0 <= volume <= 1.0 ==> 0.0 <= p <= 100.0
  {
    if muted then 0.0 else volume * 100.0
  }

  /** The page's state and its `<audio>` element. */
  class PlayerView {
    const catalog: seq<Track>
    const trackId: Option<int>
    var isPlaying: bool
    var currentTime: real
    var duration: Num
    var volume: real
    var isMuted: bool
    var repeatMode: Repeat
    var hasAudio: bool
    var elementTime: real
    var elementVolume: real
    var elementMuted: bool

    /** The effect on `[volume, isMuted]` copies both to the element. */
    ghost predicate Valid()
      reads this
    {
      |catalog| > 0 && 0.0 <= volume <= 1.0 &&
      (hasAudio ==> elementVolume == volume && elementMuted == isMuted)
    }

    constructor (catalog: seq<Track>, trackId: Option<int>, hasAudio: bool)
      requires |catalog| > 0
      ensures Valid() && this.catalog == catalog && this.trackId == trackId && this.hasAudio == hasAudio
      ensures !isPlaying && currentTime == 0.0 && duration == Finite(0.0) && volume == 1.0
      ensures !isMuted && repeatMode == Off && elementTime == 0.0
    {
      this.catalog, this.trackId, this.hasAudio := catalog, trackId, hasAudio;
      isPlaying, currentTime, duration, volume, isMuted, repeatMode := false, 0.0, Finite(0.0), 1.0, false, Off;
      elementTime, elementVolume, elementMuted := 0.0, 1.0, false;
    }

    /** `handleTrackEnd`: the route to follow, if any. Repeat-one restarts
        the element from 0, repeat-all routes to the next entry, and any
        other mode stops. */
    method HandleTrackEnd() returns (route: Option<int>)
      requires Valid()
      modifies this`elementTime, this`isPlaying
      ensures repeatMode == One ==> route == None && elementTime == 0.0 && isPlaying == old(isPlaying)
      ensures repeatMode == All ==> route == Some(SkipToNext(catalog, trackId)) && unchanged(this)
      ensures repeatMode == Off ==> route == None && !isPlaying && elementTime == old(elementTime)
    {
      route := None;
      if repeatMode == One {
        elementTime := 0.0;
      } else if repeatMode == All {
        route := Some(SkipToNext(catalog, trackId));
      } else {
        isPlaying := false;
      }
    }

    /** `handleSeek`, with the click's fraction of the bar as a parameter:
        nothing without the element or a duration; the fraction is not clamped. */
    method HandleSeek(percent: real)
      modifies this`elementTime, this`currentTime
      ensures !hasAudio || Falsy(duration) ==> unchanged(this)
      ensures hasAudio && !Falsy(duration) ==> elementTime == percent * duration.v && currentTime == elementTime
    {
      if !hasAudio || Falsy(duration) {
        return;
      }
      var newTime := percent * duration.v;
      elementTime := newTime;
      currentTime := newTime;
    }

    /** `handleVolumeChange`: the fraction clamped to [0, 1], and mute off. */
    method HandleVolumeChange(percent: real)
      requires Valid()
      modifies this`volume, this`isMuted, this`elementVolume, this`elementMuted
      ensures Valid()
      ensures volume == Clamp(0.0, 1.0, percent) && !isMuted
    {
      volume := Max(0.0, Min(1.0, percent));
      isMuted := false;
      if hasAudio {
        elementVolume, elementMuted := volume, isMuted;
      }
    }

    /** `toggleMute`. */
    method ToggleMute()
      requires Valid()
      modifies this`isMuted, this`elementMuted
      ensures Valid() && isMuted == !old(isMuted)
    {
      isMuted := !isMuted;
      if hasAudio {
        elementMuted := isMuted;
      }
    }

    /** `togglePlayPause`: nothing without the element. */
    method TogglePlayPause()
      modifies this`isPlaying
      ensures hasAudio ==> isPlaying == !old(isPlaying)
      ensures !hasAudio ==> unchanged(this)
    {
      if hasAudio {
        isPlaying := !isPlaying;
      }
    }

    /** `toggleRepeat`: `['off', 'all', 'one']`, by index mod 3. */
    method ToggleRepeat()
      modifies this`repeatMode
      ensures repeatMode == NextMode(NoneAllOne, old(repeatMode))
    {
      repeatMode := NextMode(NoneAllOne, repeatMode);
    }

    /** The element's `timeupdate` and `loadedmetadata` events. */
    method OnTimeUpdate(position: real)
      modifies this`currentTime
      ensures currentTime == position
    {
      currentTime := position;
    }

    method OnLoadedMetadata(length: Num)
      modifies this`duration
      ensures duration == length
    {
      duration := length;
    }
  }
}
