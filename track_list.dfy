/** The list helpers of components/TrackList.js: numbering, the click rule,
    the current-track test, the footer's total duration and the count labels.
    `formatDuration` is Clock.FormatTimeOrZero. */
module TrackList {
  import opened Values
  import opened Text
  import opened Tracks
  import opened Clock

  /** `(index + 1).toString().padStart(2, '0')`. */
  function TrackNumber(index: nat): (s: string)
    ensures |s| >= 2 && AllDigits(s)
    ensures index < 9 ==> s[0] == '0'
  {
    PadStart(NatToString(index + 1), 2, '0')
  }

  /** Zeros in front do not change a number's value. */
  lemma {:induction false} LeadingZeroValue(s: string)
    requires AllDigits(s)
    ensures AllDigits(['0'] + s) && DigitsValue(['0'] + s) == DigitsValue(s)
    decreases |s|
  {
    var z := ['0'] + s;
    if s != [] {
      assert z[..|z| - 1] == ['0'] + s[..|s| - 1];
      LeadingZeroValue(s[..|s| - 1]);
    } else {
      assert z[..0] == [];
    }
  }

  /** The track number reads back as index + 1. */
  lemma TrackNumberValue(index: nat)
    ensures DigitsValue(TrackNumber(index)) == index + 1
  {
    var digits := NatToString(index + 1);
    DigitsValueOfNatToString(index + 1);
    if |digits| < 2 {
      assert TrackNumber(index) == ['0'] + digits;
      LeadingZeroValue(digits);
    }
  }

  /** `currentTrack?.id === track.id`: false without a current track. */
  predicate IsCurrentTrack(current: Option<Track>, track: Track)
  {
    current.Some? && current.value.id == track.id
  }

  /** With distinct ids, at most one row is highlighted as current. */
  lemma AtMostOneCurrentRow(current: Option<Track>, tracks: seq<Track>, i: int, j: int)
    requires DistinctIds(tracks) && 0 <= i < |tracks| && 0 <= j < |tracks|
    requires IsCurrentTrack(current, tracks[i]) && IsCurrentTrack(current, tracks[j])
    ensures i == j
  {
  }

  /** The callback a row click makes. */
  datatype Click = PlayPause | Select(track: Track, index: int)

  /** `handleTrackClick`: the current track's row toggles playback, any
      other row selects that track at its index. */
  function HandleTrackClick(current: Option<Track>, track: Track, index: int): (c: Click)
    ensures c.PlayPause? <==> IsCurrentTrack(current, track)
    ensures c.Select? ==> c.track == track && c.index == index
  {
    if current.Some? && current.value.id == track.id then PlayPause else Select(track, index)
  }

  /** `track.duration || 0`: a falsy duration counts as 0. */
  function SecondsOrZero(d: Num): (x: real)
    ensures Falsy(d) ==> x == 0.0
    ensures !Falsy(d) ==> x == d.v
  {
    if Falsy(d) then 0.0 else d.v
  }

  /** `tracks.reduce((total, track) => total + (track.duration || 0), 0)`. */
  function TotalSeconds(tracks: seq<Track>): (total: real)
    ensures (forall k :: 0 <= k < |tracks| ==> SecondsOrZero(tracks[k].seconds) >= 0.0) ==> total >= 0.0
    ensures (forall k :: 0 <= k < |tracks| ==> Falsy(tracks[k].seconds)) ==> total == 0.0
  {
    if tracks == [] then 0.0 else TotalSeconds(tracks[..|tracks| - 1]) + SecondsOrZero(tracks[|tracks| - 1].seconds)
  }

  /** The total of two lists together is the sum of their totals. */
  lemma {:induction false} TotalSecondsAppend(a: seq<Track>, b: seq<Track>)
    ensures TotalSeconds(a + b) == TotalSeconds(a) + TotalSeconds(b)
    decreases |b|
  {
    if b == [] {
      assert a + b == a;
    } else {
      assert (a + b)[..|a + b| - 1] == a + b[..|b| - 1];
      TotalSecondsAppend(a, b[..|b| - 1]);
    }
  }

  /** With no negative durations the total is not negative and bounds every
      single duration. */
  lemma {:induction false} TotalSecondsBounds(tracks: seq<Track>)
    requires forall i :: 0 <= i < |tracks| ==> SecondsOrZero(tracks[i].seconds) >= 0.0
    ensures TotalSeconds(tracks) >= 0.0
    ensures forall i :: 0 <= i < |tracks| ==> SecondsOrZero(tracks[i].seconds) <= TotalSeconds(tracks)
  {
    if tracks != [] {
      var init := tracks[..|tracks| - 1];
      TotalSecondsBounds(init);
      assert forall i :: 0 <= i < |init| ==> init[i] == tracks[i];
    }
  }

  /** The footer's "m:ss total": never NaN, since missing durations count as 0. */
  function FooterTotal(tracks: seq<Track>): (s: string)
    ensures s == FormatTime(Finite(TotalSeconds(tracks)))
  {
    FormatTimeOrZero(Finite(TotalSeconds(tracks)))
  }

  /** `n === 1 ? singular : plural`, as in "1 track" and "2 songs". */
  function CountLabel(n: nat, singular: string, plural: string): (s: string)
    requires singular != plural
    ensures s == singular <==> n == 1
    ensures s == plural <==> n != 1
  {
    if n == 1 then singular else plural
  }
}
