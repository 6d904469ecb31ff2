/** The library page of pages/library.js: the search-and-genre filter, the
    in-place sort by the selected key, the play/pause click and the favourite
    set. */
module LibraryPage {
  import opened Values
  import opened Tracks

  /** The sort keys of the select box; any other value sorts nothing. */
  datatype SortKey = ByName | ByArtist | ByAlbum | ByYear | ByDuration | Unsorted

  /** `localeCompare`, approximated by code-unit lexicographic order: the
      sign of the comparison, as -1, 0 or 1. */
  function StrCompare(a: string, b: string): (c: int)
    ensures -1 <= c <= 1
    ensures c == 0 <==> a == b
  {
    if a == [] && b == [] then 0
    else if a == [] then -1
    else if b == [] then 1
    else if a[0] < b[0] then -1
    else if a[0] > b[0] then 1
    else
      var rest := StrCompare(a[1..], b[1..]);
      assert a == [a[0]] + a[1..] && b == [b[0]] + b[1..];
      rest
  }

  /** Swapping the operands negates the comparison. */
  lemma {:induction false} StrCompareAntisymmetric(a: string, b: string)
    ensures StrCompare(b, a) == -StrCompare(a, b)
  {
    if a != [] && b != [] && a[0] == b[0] {
      StrCompareAntisymmetric(a[1..], b[1..]);
    }
  }

  /** "Not after" is transitive. */
  lemma {:induction false} StrCompareTransitive(a: string, b: string, c: string)
    requires StrCompare(a, b) <= 0 && StrCompare(b, c) <= 0
    ensures StrCompare(a, c) <= 0
  {
    if a != [] && b != [] && c != [] && a[0] == b[0] && b[0] == c[0] {
      StrCompareTransitive(a[1..], b[1..], c[1..]);
    }
  }

  /** The comparator passed to `filtered.sort`: negative when a goes first.
      'year' is newest first; 'duration' compares the "m:ss" texts. */
  function Compare(key: SortKey, a: Track, b: Track): int
  {
    match key
    case ByName => StrCompare(a.title, b.title)
    case ByArtist => StrCompare(a.artist, b.artist)
    case ByAlbum => StrCompare(a.album, b.album)
    case ByYear => b.year - a.year
    case ByDuration => StrCompare(a.durationLabel, b.durationLabel)
    case Unsorted => 0
  }

  /** What each key compares: equal exactly on an equal field, the newer year
      first, and everything equal for an unknown key. */
  lemma CompareMeaning(key: SortKey, a: Track, b: Track)
    ensures key == ByName ==> (Compare(key, a, b) == 0 <==> a.title == b.title)
    ensures key == ByArtist ==> (Compare(key, a, b) == 0 <==> a.artist == b.artist)
    ensures key == ByAlbum ==> (Compare(key, a, b) == 0 <==> a.album == b.album)
    ensures key == ByYear ==> (Compare(key, a, b) < 0 <==> a.year > b.year)
    ensures key == ByYear ==> (Compare(key, a, b) == 0 <==> a.year == b.year)
    ensures key == ByDuration ==> (Compare(key, a, b) == 0 <==> a.durationLabel == b.durationLabel)
    ensures key == Unsorted ==> Compare(key, a, b) == 0
  {
  }

  /** a may stand before b. */
  predicate Precedes(key: SortKey, a: Track, b: Track)
  {
    Compare(key, a, b) <= 0
  }

  /** A comparator that says "after" one way says "before" the other way. */
  lemma CompareFlips(key: SortKey, a: Track, b: Track)
    requires Compare(key, a, b) > 0
    ensures Precedes(key, b, a)
  {
    match key
    case ByName => StrCompareAntisymmetric(a.title, b.title);
    case ByArtist => StrCompareAntisymmetric(a.artist, b.artist);
    case ByAlbum => StrCompareAntisymmetric(a.album, b.album);
    case ByYear =>
    case ByDuration => StrCompareAntisymmetric(a.durationLabel, b.durationLabel);
    case Unsorted =>
  }

  lemma PrecedesTransitive(key: SortKey, a: Track, b: Track, c: Track)
    requires Precedes(key, a, b) && Precedes(key, b, c)
    ensures Precedes(key, a, c)
  {
    match key
    case ByName => StrCompareTransitive(a.title, b.title, c.title);
    case ByArtist => StrCompareTransitive(a.artist, b.artist, c.artist);
    case ByAlbum => StrCompareTransitive(a.album, b.album, c.album);
    case ByYear =>
    case ByDuration => StrCompareTransitive(a.durationLabel, b.durationLabel, c.durationLabel);
    case Unsorted =>
  }

  /** Every entry may stand before every later one. */
  predicate SortedBy(s: seq<Track>, key: SortKey)
  {
    forall p, q :: 0 <= p < q < |s| ==> Precedes(key, s[p], s[q])
  }

  /** The reference stable sort: `x` goes after the last entry of `s` that
      may stand before it, passing only entries that compare strictly after it. */
  function InsertRight(s: seq<Track>, x: Track, key: SortKey): (r: seq<Track>)
    ensures |r| == |s| + 1
  {
    if s == [] || Compare(key, s[|s| - 1], x) <= 0 then s + [x]
    else InsertRight(s[..|s| - 1], x, key) + [s[|s| - 1]]
  }

  /** Insertion sort by `InsertRight`, one entry at a time from the left. */
  function InsertionSort(s: seq<Track>, key: SortKey): (r: seq<Track>)
    ensures |r| == |s|
  {
    if s == [] then [] else InsertRight(InsertionSort(s[..|s| - 1], key), s[|s| - 1], key)
  }

  /** The entries of `s` that the comparator cannot tell from `t`, in order. */
  function Ties(s: seq<Track>, key: SortKey, t: Track): (r: seq<Track>)
    ensures |r| <= |s|
  {
    if s == [] then []
    else Ties(s[..|s| - 1], key, t) + (if Compare(key, s[|s| - 1], t) == 0 then [s[|s| - 1]] else [])
  }

  /** An entry that compares equal to `t` compares with anything as `t` does. */
  lemma TiesCompareAlike(key: SortKey, x: Track, t: Track, e: Track)
    requires Compare(key, x, t) == 0
    ensures Compare(key, e, x) == Compare(key, e, t)
  {
  }

  /** Ties of one more entry. */
  lemma TiesSnoc(s: seq<Track>, e: Track, key: SortKey, t: Track)
    ensures Ties(s + [e], key, t) == Ties(s, key, t) + Ties([e], key, t)
    ensures Ties([e], key, t) == if Compare(key, e, t) == 0 then [e] else []
  {
    assert (s + [e])[..|s|] == s;
    assert [e][..0] == [];
  }

  /** Two pieces of which one is empty may change places. */
  lemma SwapEmptyPiece<T>(a: seq<T>, b: seq<T>, c: seq<T>)
    requires b == [] || c == []
    ensures a + b + c == a + c + b
  {
  }

  /** Passing an entry that compares after `x` does not reorder the ties. */
  lemma InsertRightTiesStep(init: seq<Track>, inserted: seq<Track>, last: Track, x: Track, key: SortKey, t: Track)
    requires Compare(key, last, x) > 0
    requires Ties(inserted, key, t) == Ties(init, key, t) + Ties([x], key, t)
    ensures Ties(inserted + [last], key, t) == Ties(init + [last], key, t) + Ties([x], key, t)
  {
    var tx, tl := Ties([x], key, t), Ties([last], key, t);
    assert tx == [] || tl == [] by {
      TiesSnoc([], x, key, t);
      TiesSnoc([], last, key, t);
      if Compare(key, x, t) == 0 {
        TiesCompareAlike(key, x, t, last);
      }
    }
    TiesSnoc(init, last, key, t);
    TiesSnoc(inserted, last, key, t);
    SwapEmptyPiece(Ties(init, key, t), tx, tl);
  }

  /** Inserting `x` places it after every entry that ties with it. */
  lemma {:induction false} InsertRightTies(s: seq<Track>, x: Track, key: SortKey, t: Track)
    ensures Ties(InsertRight(s, x, key), key, t) == Ties(s, key, t) + Ties([x], key, t)
  {
    if s == [] || Compare(key, s[|s| - 1], x) <= 0 {
      assert InsertRight(s, x, key) == s + [x];
      TiesSnoc(s, x, key, t);
    } else {
      var init, last := s[..|s| - 1], s[|s| - 1];
      var inserted := InsertRight(init, x, key);
      assert InsertRight(s, x, key) == inserted + [last];
      assert s == init + [last];
      InsertRightTies(init, x, key, t);
      InsertRightTiesStep(init, inserted, last, x, key, t);
    }
  }

  /** The sort is stable: the entries that tie with any `t` keep their order. */
  lemma {:induction false} InsertionSortStable(s: seq<Track>, key: SortKey, t: Track)
    ensures Ties(InsertionSort(s, key), key, t) == Ties(s, key, t)
  {
    if s != [] {
      var init, last := s[..|s| - 1], s[|s| - 1];
      var sorted := InsertionSort(init, key);
      assert InsertionSort(s, key) == InsertRight(sorted, last, key);
      InsertionSortStable(init, key, t);
      InsertRightTies(sorted, last, key, t);
      assert s == init + [last];
      TiesSnoc(init, last, key, t);
    }
  }

  /** Under `Unsorted` every comparison is 0, so the sort is the identity. */
  lemma {:induction false} UnsortedKeepsOrder(s: seq<Track>)
    ensures InsertionSort(s, Unsorted) == s
  {
    if s != [] {
      UnsortedKeepsOrder(s[..|s| - 1]);
      assert s[..|s| - 1] + [s[|s| - 1]] == s;
    }
  }

  /** An entry that every entry of a sorted sequence may precede extends it. */
  lemma SortedSnoc(s: seq<Track>, e: Track, key: SortKey)
    requires SortedBy(s, key)
    requires forall p :: 0 <= p < |s| ==> Precedes(key, s[p], e)
    ensures SortedBy(s + [e], key)
  {
    var r := s + [e];
    forall p, q | 0 <= p < q < |r|
      ensures Precedes(key, r[p], r[q])
    {
      assert r[p] == s[p];
    }
  }

  /** Inserting into a sorted sequence keeps it sorted. */
  lemma {:induction false} InsertRightSorted(s: seq<Track>, x: Track, key: SortKey)
    requires SortedBy(s, key)
    ensures SortedBy(InsertRight(s, x, key), key)
  {
    if s == [] || Compare(key, s[|s| - 1], x) <= 0 {
      assert InsertRight(s, x, key) == s + [x];
      forall p | 0 <= p < |s|
        ensures Precedes(key, s[p], x)
      {
        if p < |s| - 1 {
          PrecedesTransitive(key, s[p], s[|s| - 1], x);
        }
      }
      SortedSnoc(s, x, key);
    } else {
      var init, last := s[..|s| - 1], s[|s| - 1];
      var r := InsertRight(init, x, key);
      assert InsertRight(s, x, key) == r + [last];
      assert SortedBy(init, key);
      InsertRightSorted(init, x, key);
      InsertRightPermutes(init, x, key);
      CompareFlips(key, last, x);
      forall p | 0 <= p < |r|
        ensures Precedes(key, r[p], last)
      {
        assert r[p] in multiset(r);
        if r[p] != x {
          assert r[p] in init;
          var k :| 0 <= k < |init| && init[k] == r[p];
          assert s[k] == init[k];
        }
      }
      SortedSnoc(r, last, key);
    }
  }

  /** Inserting adds exactly `x`. */
  lemma {:induction false} InsertRightPermutes(s: seq<Track>, x: Track, key: SortKey)
    ensures multiset(InsertRight(s, x, key)) == multiset(s) + multiset{x}
  {
    if s != [] && Compare(key, s[|s| - 1], x) > 0 {
      InsertRightPermutes(s[..|s| - 1], x, key);
      assert s == s[..|s| - 1] + [s[|s| - 1]];
    }
  }

  /** The reference sort's result is sorted. */
  lemma {:induction false} InsertionSortSorted(s: seq<Track>, key: SortKey)
    ensures SortedBy(InsertionSort(s, key), key)
  {
    if s != [] {
      InsertionSortSorted(s[..|s| - 1], key);
      InsertRightSorted(InsertionSort(s[..|s| - 1], key), s[|s| - 1], key);
    }
  }

  /** The reference sort's result is a permutation of its input. */
  lemma {:induction false} InsertionSortPermutes(s: seq<Track>, key: SortKey)
    ensures multiset(InsertionSort(s, key)) == multiset(s)
  {
    if s != [] {
      var init, last := s[..|s| - 1], s[|s| - 1];
      var sorted := InsertionSort(init, key);
      calc {
        multiset(InsertionSort(s, key));
        multiset(InsertRight(sorted, last, key));
        { InsertRightPermutes(sorted, last, key); }
        multiset(sorted) + multiset{last};
        { InsertionSortPermutes(init, key); }
        multiset(init) + multiset{last};
        multiset(init + [last]);
        { assert s == init + [last]; }
        multiset(s);
      }
    }
  }

  /** Durations sort as text: "10:00" comes before "9:59". */
  lemma DurationSortIsTextual(a: Track, b: Track)
    requires a.durationLabel == "10:00" && b.durationLabel == "9:59"
    ensures Compare(ByDuration, a, b) < 0
  {
    assert "10:00"[0] == '1' && "9:59"[0] == '9';
  }

  /** The page's filter: the search matches and the genre is the selected one,
      or the selection is 'all'. */
  predicate Shown(t: Track, query: string, genre: string)
  {
    MatchesQuery(t, query) && (genre == "all" || t.genre == genre)
  }

  /** `filtered.sort(...)`: an insertion sort, stable like the engine's sort,
      so entries that compare equal keep their order. */
  method SortTracks(a: array<Track>, key: SortKey)
    modifies a
    ensures a[..] == InsertionSort(old(a[..]), key)
  {
    ghost var original := a[..];
    if a.Length > 0 {
      InsertionSortSnoc(original, 0, key);
      assert original[..0] == [];
    }
    var i := 1;
    while i < a.Length
      invariant a.Length == 0 || 1 <= i <= a.Length
      invariant a.Length > 0 ==> a[..i] == InsertionSort(original[..i], key) && a[i..] == original[i..]
    {
      assert a[i] == original[i] && a[i + 1..] == original[i + 1..] by {
        assert a[i..] == original[i..];
        assert a[i + 1..] == a[i..][1..] && original[i + 1..] == original[i..][1..];
      }
      InsertLast(a, i, key);
      assert a[..i + 1] == InsertionSort(original[..i + 1], key) by {
        InsertionSortSnoc(original, i, key);
      }
      i := i + 1;
    }
    if a.Length > 0 {
      assert a[..] == a[..i] && original == original[..i];
    }
  }

  /** What the reference sort promises, gathered: sorted, a permutation,
      stable, and the identity for an unknown key. */
  lemma InsertionSortIsStableSort(s: seq<Track>, key: SortKey)
    ensures SortedBy(InsertionSort(s, key), key)
    ensures multiset(InsertionSort(s, key)) == multiset(s)
    ensures forall t :: Ties(InsertionSort(s, key), key, t) == Ties(s, key, t)
    ensures key == Unsorted ==> InsertionSort(s, key) == s
  {
    InsertionSortSorted(s, key);
    InsertionSortPermutes(s, key);
    forall t
      ensures Ties(InsertionSort(s, key), key, t) == Ties(s, key, t)
    {
      InsertionSortStable(s, key, t);
    }
    if key == Unsorted {
      UnsortedKeepsOrder(s);
    }
  }

  /** Sorting one entry more is inserting it into the sorted prefix. */
  lemma InsertionSortSnoc(s: seq<Track>, i: int, key: SortKey)
    requires 0 <= i < |s|
    ensures InsertionSort(s[..i + 1], key) == InsertRight(InsertionSort(s[..i], key), s[i], key)
  {
    assert s[..i + 1][..i] == s[..i];
  }

  /** The insertion loop's picture: `x` stands at j between `prefix[..j]` and
      `prefix[j..]`, and what is left of `InsertRight` is inserting into `prefix[..j]`. */
  predicate InsertingAt(s: seq<Track>, prefix: seq<Track>, x: Track, rest: seq<Track>, key: SortKey, j: int)
  {
    0 <= j <= |prefix| && s == prefix[..j] + [x] + prefix[j..] + rest &&
    InsertRight(prefix, x, key) == InsertRight(prefix[..j], x, key) + prefix[j..]
  }

  /** Exchanging `x` with a left neighbour that compares after it moves the
      picture one place left. */
  lemma InsertingStep(s: seq<Track>, prefix: seq<Track>, x: Track, rest: seq<Track>, key: SortKey, j: int)
    requires InsertingAt(s, prefix, x, rest, key, j) && j > 0 && Compare(key, s[j - 1], s[j]) > 0
    ensures InsertingAt(s[j - 1 := s[j]][j := s[j - 1]], prefix, x, rest, key, j - 1)
  {
    var t := s[j - 1 := s[j]][j := s[j - 1]];
    var u := prefix[..j - 1] + [x] + prefix[j - 1..] + rest;
    assert s[j] == x && s[j - 1] == prefix[j - 1];
    assert |t| == |u|;
    forall k | 0 <= k < |t|
      ensures t[k] == u[k]
    {
      if k < j - 1 {
        assert t[k] == prefix[k];
      } else if k > j {
        assert t[k] == s[k];
      }
    }
    assert prefix[..j][..j - 1] == prefix[..j - 1];
    assert [prefix[j - 1]] + prefix[j..] == prefix[j - 1..];
  }

  /** When `x` stops, the first |prefix| + 1 entries are `InsertRight`'s result. */
  lemma InsertingDone(s: seq<Track>, prefix: seq<Track>, x: Track, rest: seq<Track>, key: SortKey, j: int)
    requires InsertingAt(s, prefix, x, rest, key, j)
    requires j > 0 ==> Compare(key, s[j - 1], s[j]) <= 0
    ensures s[..|prefix| + 1] == InsertRight(prefix, x, key) && s[|prefix| + 1..] == rest
  {
    if j > 0 {
      assert s[j] == x && s[j - 1] == prefix[j - 1];
      assert prefix[..j][j - 1] == prefix[j - 1];
    }
    assert s[..|prefix| + 1] == prefix[..j] + [x] + prefix[j..];
  }

  /** Exchanges `a[j - 1]` and `a[j]`. */
  method Swap(a: array<Track>, j: int)
    requires 0 < j < a.Length
    modifies a
    ensures a[..] == old(a[..])[j - 1 := old(a[j])][j := old(a[j - 1])]
  {
    a[j - 1], a[j] := a[j], a[j - 1];
  }

  /** Moves `a[i]` left past the entries before it that compare after it, as
      `InsertRight` does. */
  method InsertLast(a: array<Track>, i: int, key: SortKey)
    requires 0 < i < a.Length
    modifies a
    ensures a[..i + 1] == InsertRight(old(a[..i]), old(a[i]), key)
    ensures a[i + 1..] == old(a[i + 1..])
  {
    ghost var prefix, x, rest := a[..i], a[i], a[i + 1..];
    ghost var current := a[..];
    assert InsertingAt(current, prefix, x, rest, key, i) by {
      assert current == prefix[..i] + [x] + prefix[i..] + rest;
      assert prefix[..i] == prefix;
    }
    var j := i;
    while j > 0 && Compare(key, a[j - 1], a[j]) > 0
      invariant 0 <= j <= i
      invariant a[..] == current
      invariant InsertingAt(current, prefix, x, rest, key, j)
    {
      InsertingStep(current, prefix, x, rest, key, j);
      Swap(a, j);
      current := current[j - 1 := current[j]][j := current[j - 1]];
      j := j - 1;
    }
    InsertingDone(current, prefix, x, rest, key, j);
  }

  /** The tracks that pass the page's filter, in catalog order. */
  function Visible(tracks: seq<Track>, query: string, genre: string): (r: seq<Track>)
    ensures forall i :: 0 <= i < |r| ==> r[i] in tracks && Shown(r[i], query, genre)
    ensures forall i :: 0 <= i < |tracks| && Shown(tracks[i], query, genre) ==> tracks[i] in r
  {
    Filter(tracks, t => Shown(t, query, genre))
  }

  /** With the empty query and every genre selected, the filter hides nothing. */
  lemma NothingHiddenAtFirst(tracks: seq<Track>)
    ensures Visible(tracks, [], "all") == tracks
  {
    forall i | 0 <= i < |tracks| ensures Shown(tracks[i], [], "all") {
      EmptyQueryMatches(tracks[i]);
    }
    FilterAll(tracks, t => Shown(t, [], "all"));
  }

  /** The filter effect's run after the catalog has been loaded, on the
      initial query, genre and order: the whole catalog sorted by name. */
  method FirstDisplay(catalog: seq<Track>) returns (shown: seq<Track>)
    ensures shown == InsertionSort(catalog, ByName)
  {
    NothingHiddenAtFirst(catalog);
    shown := ApplyFilterAndSort(catalog, [], "all", ByName);
  }

  /** The filter-and-sort effect: the tracks shown, in display order. */
  method ApplyFilterAndSort(tracks: seq<Track>, query: string, genre: string, key: SortKey)
    returns (shown: seq<Track>)
    ensures multiset(shown) == multiset(Visible(tracks, query, genre))
    ensures forall i :: 0 <= i < |shown| ==> shown[i] in tracks && Shown(shown[i], query, genre)
    ensures forall i :: 0 <= i < |tracks| && Shown(tracks[i], query, genre) ==> tracks[i] in shown
    ensures shown == InsertionSort(Visible(tracks, query, genre), key)
    ensures SortedBy(shown, key)
    ensures forall t :: Ties(shown, key, t) == Ties(Visible(tracks, query, genre), key, t)
    ensures key == Unsorted ==> shown == Visible(tracks, query, genre)
  {
    var filtered := Visible(tracks, query, genre);
    var a := new Track[|filtered|](k requires 0 <= k < |filtered| => filtered[k]);
    assert a[..] == filtered;
    SortTracks(a, key);
    shown := a[..];
    InsertionSortIsStableSort(filtered, key);
    forall i | 0 <= i < |shown|
      ensures shown[i] in tracks && Shown(shown[i], query, genre)
    {
      assert shown[i] in multiset(filtered);
    }
    forall i | 0 <= i < |tracks| && Shown(tracks[i], query, genre)
      ensures tracks[i] in shown
    {
      assert tracks[i] in multiset(shown);
    }
  }

  /** The page's state. */
  class Library {
    var tracks: seq<Track>
    var filteredTracks: seq<Track>
    var searchQuery: string
    var selectedGenre: string
    var sortBy: SortKey
    var currentTrack: Option<Track>
    var isPlaying: bool
    var favorites: set<int>

    /** The settled state after the mount effects and the re-render. On
        mount, the mount effect sets both lists to the catalog, and the filter
        effect, still seeing the empty `tracks` of the first render, sets the
        shown list to the empty list after it. Once `tracks` holds the catalog,
        the filter effect runs again and shows the catalog sorted by name;
        the constructor gives that state. */
    constructor (catalog: seq<Track>)
      ensures tracks == catalog && searchQuery == [] && selectedGenre == "all"
      ensures sortBy == ByName && currentTrack == None && !isPlaying && favorites == {}
      ensures filteredTracks == InsertionSort(catalog, ByName)
    {
      tracks, filteredTracks := catalog, catalog;
      searchQuery, selectedGenre, sortBy := [], "all", ByName;
      currentTrack, isPlaying, favorites := None, false, {};
      new;
      filteredTracks := FirstDisplay(catalog);
    }

    /** The effect on `[tracks, searchQuery, selectedGenre, sortBy]`. */
    method Refresh()
      modifies this`filteredTracks
      ensures filteredTracks == InsertionSort(Visible(tracks, searchQuery, selectedGenre), sortBy)
      ensures multiset(filteredTracks) == multiset(Visible(tracks, searchQuery, selectedGenre))
      ensures SortedBy(filteredTracks, sortBy)
      ensures forall t :: Ties(filteredTracks, sortBy, t) == Ties(Visible(tracks, searchQuery, selectedGenre), sortBy, t)
    {
      filteredTracks := ApplyFilterAndSort(tracks, searchQuery, selectedGenre, sortBy);
    }

    /** `handlePlayTrack`: the current track's card toggles playback; any
        other card switches to its track and plays. */
    method HandlePlayTrack(track: Track)
      modifies this`currentTrack, this`isPlaying
      ensures old(currentTrack).Some? && old(currentTrack).value.id == track.id ==>
        currentTrack == old(currentTrack) && isPlaying == !old(isPlaying)
      ensures !(old(currentTrack).Some? && old(currentTrack).value.id == track.id) ==>
        currentTrack == Some(track) && isPlaying
    {
      if currentTrack.Some? && currentTrack.value.id == track.id {
        isPlaying := !isPlaying;
      } else {
        currentTrack := Some(track);
        isPlaying := true;
      }
    }

    /** `toggleFavorite`: flips exactly the given id. */
    method ToggleFavorite(trackId: int)
      modifies this`favorites
      ensures trackId in favorites <==> trackId !in old(favorites)
      ensures forall id :: id != trackId ==> (id in favorites <==> id in old(favorites))
    {
      favorites := Toggle(favorites, trackId);
    }
  }
}
