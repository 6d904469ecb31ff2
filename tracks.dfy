/** Tracks and the small helpers over track lists that several views share:
    reading an array slot, `findIndex` by id, the search match, `filter`, and
    the copy-and-flip of a Set of track ids. */
module Tracks {
  import opened Values
  import opened Text

  /** A track record. The views read different fields: `durationLabel` is the
      "3:45" text of the page catalogs, `seconds` the numeric duration that
      components/TrackList.js sums (a missing duration is NaN: falsy either way).
      `url` is where the pages and the providers load a track from; `src` is
      the optional property that hooks/useAudioPlayer.js loads from instead,
      and that none of the application's track records defines (None). */
  datatype Track = Track(
    id: int,
    title: string,
    artist: string,
    album: string,
    genre: string,
    year: int,
    durationLabel: string,
    seconds: Num,
    url: string,
    src: Option<string>)

  /** Repeat mode. The code spells "off" as 'none' in some files and 'off' in others. */
  datatype Repeat = Off | All | One

  /** The volume written to the media element: `isMuted ? 0 : volume`. */
  function EffectiveVolume(volume: real, muted: bool): (v: real)
    ensures muted ==> v == 0.0
    ensures !muted ==> v == volume
  {
    if muted then 0.0 else volume
  }

  /** `modes.indexOf(mode)`: the first position holding the mode, or -1. */
  function IndexOf(modes: seq<Repeat>, mode: Repeat): (i: int)
    ensures -1 <= i < |modes|
    ensures i == -1 <==> mode !in modes
    ensures i >= 0 ==> modes[i] == mode && forall k :: 0 <= k < i ==> modes[k] != mode
  {
    if modes == [] then -1
    else if modes[0] == mode then 0
    else
      var rest := IndexOf(modes[1..], mode);
      if rest == -1 then -1 else rest + 1
  }

  /** The repeat button written as a list of modes:
      `modes[(modes.indexOf(mode) + 1) % modes.length]`. The index is at least
      0 there, so JavaScript's `%` agrees with Dafny's. */
  function NextMode(modes: seq<Repeat>, mode: Repeat): (r: Repeat)
    requires |modes| > 0
    ensures r in modes
    ensures mode !in modes ==> r == modes[0]
  {
    modes[(IndexOf(modes, mode) + 1) % |modes|]
  }

  /** `['none', 'all', 'one']`: context/PlayerContext.js, hooks/useAudioPlayer.js
      and pages/player.js (which spells the first 'off'). */
  const NoneAllOne: seq<Repeat> := [Off, All, One]

  /** `['none', 'one', 'all']`: pages/_app.js. */
  const NoneOneAll: seq<Repeat> := [Off, One, All]

  /** none -> all -> one -> none. */
  lemma NoneAllOneCycle(mode: Repeat)
    ensures NextMode(NoneAllOne, mode) == match mode case Off => All case All => One case One => Off
  {
    match mode
    case Off => assert IndexOf(NoneAllOne, Off) == 0;
    case All => assert IndexOf(NoneAllOne, All) == 1;
    case One => assert IndexOf(NoneAllOne, One) == 2;
  }

  /** none -> one -> all -> none. */
  lemma NoneOneAllCycle(mode: Repeat)
    ensures NextMode(NoneOneAll, mode) == match mode case Off => One case One => All case All => Off
  {
    match mode
    case Off => assert IndexOf(NoneOneAll, Off) == 0;
    case One => assert IndexOf(NoneOneAll, One) == 1;
    case All => assert IndexOf(NoneOneAll, All) == 2;
  }

  /** Each cycle visits every mode and returns after three presses, and the
      two button orders run in opposite directions: one press of each is no
      change at all. */
  lemma RepeatCyclesAreInverse(mode: Repeat)
    ensures NextMode(NoneAllOne, NextMode(NoneAllOne, NextMode(NoneAllOne, mode))) == mode
    ensures NextMode(NoneOneAll, NextMode(NoneOneAll, NextMode(NoneOneAll, mode))) == mode
    ensures NextMode(NoneAllOne, mode) != mode && NextMode(NoneOneAll, mode) != mode
    ensures NextMode(NoneOneAll, NextMode(NoneAllOne, mode)) == mode
    ensures NextMode(NoneAllOne, NextMode(NoneOneAll, mode)) == mode
  {
    forall m: Repeat ensures NextMode(NoneAllOne, m) == match m case Off => All case All => One case One => Off {
      NoneAllOneCycle(m);
    }
    forall m: Repeat ensures NextMode(NoneOneAll, m) == match m case Off => One case One => All case All => Off {
      NoneOneAllCycle(m);
    }
  }

  /** `s[i]` in JavaScript: undefined (None) outside the array. */
  function At<T>(s: seq<T>, i: int): (r: Option<T>)
    ensures r.Some? <==> 0 <= i < |s|
    ensures r.Some? ==> r.value == s[i]
  {
    if 0 <= i < |s| then Some(s[i]) else None
  }

  /** `tracks.findIndex(t => t.id === id)`: the first position holding that
      id, or -1. */
  function FindIndex(tracks: seq<Track>, id: int): (i: int)
    ensures -1 <= i < |tracks|
    ensures i == -1 <==> forall k :: 0 <= k < |tracks| ==> tracks[k].id != id
    ensures i >= 0 ==> tracks[i].id == id && forall k :: 0 <= k < i ==> tracks[k].id != id
  {
    if tracks == [] then -1
    else if tracks[0].id == id then 0
    else
      var rest := FindIndex(tracks[1..], id);
      if rest == -1 then -1 else rest + 1
  }

  /** No two catalog entries share an id. */
  predicate DistinctIds(catalog: seq<Track>)
  {
    forall i, j :: 0 <= i < j < |catalog| ==> catalog[i].id != catalog[j].id
  }

  /** With distinct ids, an entry's position is found by its id. */
  lemma FindIndexOfEntry(catalog: seq<Track>, i: int)
    requires DistinctIds(catalog) && 0 <= i < |catalog|
    ensures FindIndex(catalog, catalog[i].id) == i
  {
  }

  /** `new Set(s)`, then `delete(x)` when present and `add(x)` otherwise. */
  function Toggle(s: set<int>, x: int): (r: set<int>)
    ensures x in r <==> x !in s
    ensures forall y :: y != x ==> (y in r <==> y in s)
  {
    if x in s then s - {x} else s + {x}
  }

  /** Toggling the same id twice restores the set. */
  lemma ToggleTwice(s: set<int>, x: int)
    ensures Toggle(Toggle(s, x), x) == s
  {
  }

  /** The case-insensitive search of pages/index.js and pages/library.js:
      the lower-cased query occurs in the lower-cased title, artist or album. */
  predicate MatchesQuery(t: Track, query: string)
  {
    var q := ToLower(query);
    Includes(ToLower(t.title), q) || Includes(ToLower(t.artist), q) || Includes(ToLower(t.album), q)
  }

  /** The search ignores the query's case, and every track is found by its
      own title, artist or album. */
  lemma MatchesQueryIgnoresCase(t: Track, query: string)
    ensures MatchesQuery(t, query) <==> MatchesQuery(t, ToLower(query))
    ensures MatchesQuery(t, t.title) && MatchesQuery(t, t.artist) && MatchesQuery(t, t.album)
  {
    ToLowerIdempotent(query);
    IncludesTrivial(ToLower(t.title));
    IncludesTrivial(ToLower(t.artist));
    IncludesTrivial(ToLower(t.album));
  }

  /** The empty query matches every track. */
  lemma EmptyQueryMatches(t: Track)
    ensures MatchesQuery(t, "")
  {
    IncludesTrivial(ToLower(t.title));
  }

  /** `Array.prototype.filter`: the elements that pass, in their order. */
  function Filter<T>(s: seq<T>, keep: T -> bool): (r: seq<T>)
    ensures |r| <= |s|
    ensures forall i :: 0 <= i < |r| ==> r[i] in s && keep(r[i])
    ensures forall i :: 0 <= i < |s| && keep(s[i]) ==> s[i] in r
  {
    if s == [] then [] else (if keep(s[0]) then [s[0]] else []) + Filter(s[1..], keep)
  }

  /** Filtering distributes over concatenation: with the one-element case,
      this says the result keeps exactly the passing elements in their order. */
  lemma {:induction false} FilterAppend<T>(a: seq<T>, b: seq<T>, keep: T -> bool)
    ensures Filter(a + b, keep) == Filter(a, keep) + Filter(b, keep)
  {
    if a == [] {
      assert a + b == b;
    } else {
      assert (a + b)[1..] == a[1..] + b;
      FilterAppend(a[1..], b, keep);
    }
  }

  /** Filtering twice with the same test is filtering once. */
  lemma {:induction false} FilterIdempotent<T>(s: seq<T>, keep: T -> bool)
    ensures Filter(Filter(s, keep), keep) == Filter(s, keep)
  {
    if s != [] {
      var head := if keep(s[0]) then [s[0]] else [];
      FilterAppend(head, Filter(s[1..], keep), keep);
      FilterIdempotent(s[1..], keep);
      assert Filter(head, keep) == head by {
        if keep(s[0]) { assert [s[0]][1..] == []; }
      }
    }
  }

  /** A test every element passes keeps the whole list. */
  lemma {:induction false} FilterAll<T>(s: seq<T>, keep: T -> bool)
    requires forall i :: 0 <= i < |s| ==> keep(s[i])
    ensures Filter(s, keep) == s
  {
    if s != [] {
      FilterAll(s[1..], keep);
    }
  }
}
