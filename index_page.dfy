/** The home page of pages/index.js: its own player over the page's sample
    catalog, with find-by-id navigation, a like set, the search filter and a
    repeat button written as a chain of conditionals. */
module HomePage {
  import opened Values
  import opened Tracks

  /** The repeat button: `'off' -> 'all' -> 'one' -> 'off'`. */
  function NextRepeat(mode: Repeat): (m: Repeat)
    ensures m != mode
  {
    if mode == Off then All else if mode == All then One else Off
  }

  /** The chain of conditionals is the same cycle as the list-based buttons
      of the other files. */
  lemma NextRepeatIsNoneAllOne(mode: Repeat)
    ensures NextRepeat(mode) == NextMode(NoneAllOne, mode)
  {
    NoneAllOneCycle(mode);
  }

  /** `filteredTracks`: the catalog entries whose title, artist or album
      contains the query, ignoring case. */
  function FilteredTracks(catalog: seq<Track>, query: string): (r: seq<Track>)
    ensures forall i :: 0 <= i < |r| ==> r[i] in catalog && MatchesQuery(r[i], query)
    ensures forall i :: 0 <= i < |catalog| && MatchesQuery(catalog[i], query) ==> catalog[i] in r
  {
    Filter(catalog, t => MatchesQuery(t, query))
  }

  /** An empty search shows the whole catalog in its order. */
  lemma EmptySearchShowsAll(catalog: seq<Track>)
    ensures FilteredTracks(catalog, "") == catalog
  {
    forall i | 0 <= i < |catalog| ensures MatchesQuery(catalog[i], "") {
      EmptyQueryMatches(catalog[i]);
    }
    FilterAll(catalog, t => MatchesQuery(t, ""));
  }

  /** The track `playNext` switches to: a random draw when shuffled,
      otherwise the entry after the current id's position. A current id that
      is missing gives position -1, hence the first entry. */
  function NextOf(catalog: seq<Track>, current: Track, shuffled: bool, r: UnitReal): (t: Track)
    requires |catalog| > 0
    ensures t in catalog
    ensures !shuffled && FindIndex(catalog, current.id) == -1 ==> t == catalog[0]
  {
    var i := FindIndex(catalog, current.id);
    var next := if shuffled then RandomIndex(r, |catalog|) else JsRemainder(i + 1, |catalog|);
    catalog[next]
  }

  /** The track `playPrevious` switches to (shuffle is not consulted): the
      last entry before position 0, undefined when the id is missing. */
  function PreviousOf(catalog: seq<Track>, current: Track): (t: Option<Track>)
    requires |catalog| > 0
    ensures FindIndex(catalog, current.id) == -1 ==> t == None
    ensures FindIndex(catalog, current.id) >= 0 ==> t.Some? && t.value in catalog
  {
    var i := FindIndex(catalog, current.id);
    At(catalog, if i == 0 then |catalog| - 1 else i - 1)
  }

  /** Unshuffled, previous undoes next for every catalog entry. */
  lemma PreviousUndoesNext(catalog: seq<Track>, k: int, r: UnitReal)
    requires DistinctIds(catalog) && 0 <= k < |catalog|
    ensures PreviousOf(catalog, NextOf(catalog, catalog[k], false, r)) == Some(catalog[k])
  {
    var next := if k + 1 < |catalog| then k + 1 else 0;
    NextOfEntry(catalog, k, r);
    PreviousOfEntry(catalog, next);
  }

  lemma NextOfEntry(catalog: seq<Track>, i: int, r: UnitReal)
    requires DistinctIds(catalog) && 0 <= i < |catalog|
    ensures NextOf(catalog, catalog[i], false, r) == catalog[if i + 1 < |catalog| then i + 1 else 0]
  {
    FindIndexOfEntry(catalog, i);
    if i + 1 < |catalog| {
      RemainderOfSmaller(i + 1, |catalog|);
    } else {
      RemainderOfSelf(|catalog|);
    }
  }

  lemma RemainderOfSmaller(a: int, n: int)
    requires 0 <= a < n
    ensures JsRemainder(a, n) == a
  {
    assert a / n == 0;
  }

  lemma RemainderOfSelf(n: int)
    requires n > 0
    ensures JsRemainder(n, n) == 0
  {
  }

  lemma PreviousOfEntry(catalog: seq<Track>, i: int)
    requires DistinctIds(catalog) && 0 <= i < |catalog|
    ensures PreviousOf(catalog, catalog[i]) == Some(catalog[if i == 0 then |catalog| - 1 else i - 1])
  {
    FindIndexOfEntry(catalog, i);
  }

  /** Repeat off at the last entry still wraps to the first. */
  lemma EndOfCatalogWraps(catalog: seq<Track>, r: UnitReal)
    requires DistinctIds(catalog) && |catalog| > 0
    ensures NextOf(catalog, catalog[|catalog| - 1], false, r) == catalog[0]
  {
    NextOfEntry(catalog, |catalog| - 1, r);
  }

  /** The page's state and its media element. */
  class Home {
    const catalog: seq<Track>
    var currentTrack: Option<Track>
    var isPlaying: bool
    var volume: real
    var isShuffled: bool
    var repeatMode: Repeat
    var likedTracks: set<int>
    var src: string
    var elementVolume: real
    var elementTime: real

    /** The effect on `[currentTrack, audioElement, volume]` keeps the element
        on the current track's url at the stored volume. */
    ghost predicate Valid()
      reads this
    {
      |catalog| > 0 && (currentTrack.Some? ==> src == currentTrack.value.url && elementVolume == volume)
    }

    constructor (catalog: seq<Track>)
      requires |catalog| > 0
      ensures Valid() && this.catalog == catalog && currentTrack == None && !isPlaying
      ensures volume == 1.0 && !isShuffled && repeatMode == Off && likedTracks == {} && elementTime == 0.0
    {
      this.catalog := catalog;
      currentTrack, isPlaying, volume, isShuffled := None, false, 1.0, false;
      repeatMode, likedTracks := Off, {};
      src, elementVolume, elementTime := [], 1.0, 0.0;
    }

    method LoadCurrentTrack()
      modifies this`src, this`elementVolume
      ensures currentTrack.Some? ==> src == currentTrack.value.url && elementVolume == volume
      ensures currentTrack.None? ==> src == old(src) && elementVolume == old(elementVolume)
    {
      if currentTrack.Some? {
        src := currentTrack.value.url;
        elementVolume := volume;
      }
    }

    /** `playTrack`. */
    method PlayTrack(track: Track)
      requires Valid()
      modifies this`currentTrack, this`isPlaying, this`src, this`elementVolume
      ensures Valid() && currentTrack == Some(track) && isPlaying
    {
      currentTrack := Some(track);
      isPlaying := true;
      LoadCurrentTrack();
    }

    /** `togglePlayPause`. */
    method TogglePlayPause()
      modifies this`isPlaying
      ensures isPlaying == !old(isPlaying)
    {
      isPlaying := !isPlaying;
    }

    /** `playNext`: nothing without a current track. */
    method PlayNext(r: UnitReal)
      requires Valid()
      modifies this`currentTrack, this`src, this`elementVolume
      ensures Valid()
      ensures old(currentTrack).None? ==> unchanged(this)
      ensures old(currentTrack).Some? ==> currentTrack == Some(NextOf(catalog, old(currentTrack).value, isShuffled, r))
    {
      if currentTrack.None? {
        return;
      }
      currentTrack := Some(NextOf(catalog, currentTrack.value, isShuffled, r));
      LoadCurrentTrack();
    }

    /** `playPrevious`: nothing without a current track. */
    method PlayPrevious()
      requires Valid()
      modifies this`currentTrack, this`src, this`elementVolume
      ensures Valid()
      ensures old(currentTrack).None? ==> unchanged(this)
      ensures old(currentTrack).Some? ==> currentTrack == PreviousOf(catalog, old(currentTrack).value)
    {
      if currentTrack.None? {
        return;
      }
      currentTrack := PreviousOf(catalog, currentTrack.value);
      LoadCurrentTrack();
    }

    /** `handleTrackEnd`: under 'one' the element restarts from 0; under
        'all' and under 'off' alike the next track plays, so the end of the
        catalog wraps to its start even with repeat off. */
    method HandleTrackEnd(r: UnitReal)
      requires Valid()
      modifies this`elementTime, this`currentTrack, this`src, this`elementVolume
      ensures Valid()
      ensures repeatMode == One ==> elementTime == 0.0 && currentTrack == old(currentTrack)
      ensures repeatMode == One ==> src == old(src) && elementVolume == old(elementVolume)
      ensures repeatMode != One ==> elementTime == old(elementTime)
      ensures repeatMode != One && old(currentTrack).None? ==> unchanged(this)
      ensures repeatMode != One && old(currentTrack).Some? ==>
        currentTrack == Some(NextOf(catalog, old(currentTrack).value, isShuffled, r))
    {
      if repeatMode == One {
        elementTime := 0.0;
      } else {
        PlayNext(r);
      }
    }

    /** `toggleLike`: flips exactly the given id. */
    method ToggleLike(trackId: int)
      modifies this`likedTracks
      ensures trackId in likedTracks <==> trackId !in old(likedTracks)
      ensures forall id :: id != trackId ==> (id in likedTracks <==> id in old(likedTracks))
    {
      likedTracks := Toggle(likedTracks, trackId);
    }

    /** The shuffle button flips the flag. */
    method ToggleShuffle()
      modifies this`isShuffled
      ensures isShuffled == !old(isShuffled)
    {
      isShuffled := !isShuffled;
    }

    /** The repeat button. */
    method CycleRepeat()
      modifies this`repeatMode
      ensures repeatMode == NextRepeat(old(repeatMode)) && repeatMode != old(repeatMode)
    {
      repeatMode := NextRepeat(repeatMode);
    }
  }
}
