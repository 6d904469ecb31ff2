/** The reducer-based player of context/PlayerContext.js: a record state, the
    actions dispatched to `playerReducer`, the next/previous index rules, the
    Fisher-Yates `shuffleArray`, and the provider commands that clamp or
    cycle a value before dispatching. */
module PlayerContext {
  import opened Values
  import opened Tracks

  /** An opaque reference to a Web Audio object (context, analyser, source). */
  type Handle = nat

  datatype State = State(
    currentTrack: Option<Track>,
    tracks: seq<Track>,
    isPlaying: bool,
    isLoading: bool,
    currentTime: real,
    duration: real,
    volume: real,
    isMuted: bool,
    isShuffled: bool,
    repeatMode: Repeat,
    playbackRate: real,
    isFullscreen: bool,
    isMiniPlayer: bool,
    queue: seq<Track>,
    currentIndex: int,
    visualizerData: seq<int>,
    error: Option<string>,
    audioContext: Option<Handle>,
    analyser: Option<Handle>,
    dataArray: Option<seq<Byte>>,
    source: Option<Handle>)

  /** `initialState`. */
  function Initial(): (s: State)
    ensures s.currentTrack.None? && s.tracks == [] && s.queue == [] && s.currentIndex == -1
    ensures !s.isPlaying && !s.isMuted && !s.isShuffled && s.repeatMode == Off
    ensures s.volume == 1.0 && s.playbackRate == 1.0 && s.error.None?
    ensures |s.visualizerData| == 64 && forall k :: 0 <= k < 64 ==> s.visualizerData[k] == 0
  {
    State(
      None, [], false, false, 0.0, 0.0, 1.0, false, false, Off, 1.0, false, false,
      [], -1, Zeros(64), None, None, None, None, None)
  }

  datatype Action =
    | SetTracks(payloadTracks: seq<Track>)
    | SetCurrentTrack(track: Option<Track>, index: int)
    | Play
    | Pause
    | SetLoading(loading: bool)
    | SetTime(time: real)
    | SetDuration(length: real)
    | SetVolume(level: real)
    | ToggleMute
    | SetShuffle(shuffled: bool, random: RandomStream)
    | SetRepeat(mode: Repeat)
    | SetPlaybackRate(rate: real)
    | ToggleFullscreen
    | ToggleMiniPlayer
    | SetVisualizerData(data: seq<int>)
    | SetAudioContext(context: Handle, analyserNode: Handle, buffer: seq<Byte>, sourceNode: Handle)
    | SetError(message: string)
    | NextTrack
    | PreviousTrack
    | ResetPlayer
    | Unknown(kind: string)

  /** `getNextTrackIndex`: -1 means "no next track". */
  function NextTrackIndex(currentIndex: int, queueLength: nat, mode: Repeat): (i: int)
    ensures -1 <= currentIndex < queueLength ==> -1 <= i < queueLength
    ensures -1 <= currentIndex ==> (i == -1 <==>
      queueLength == 0 || (mode.One? && currentIndex == -1) || (mode.Off? && currentIndex + 1 >= queueLength))
    ensures queueLength > 0 && mode.One? ==> i == currentIndex
    ensures mode.All? && 0 <= currentIndex < queueLength ==> i == (currentIndex + 1) % queueLength
    ensures mode.Off? && i != -1 ==> i == currentIndex + 1
  {
    if queueLength == 0 then -1
    else if mode.One? then currentIndex
    else
      var next := currentIndex + 1;
      if next >= queueLength then (if mode.All? then 0 else -1)
      else next
  }

  /** `getPreviousTrackIndex`: below 0 it wraps only under repeat-all and
      otherwise answers -1; it never clamps to 0. */
  function PreviousTrackIndex(currentIndex: int, queueLength: nat, mode: Repeat): (i: int)
    ensures -1 <= currentIndex < queueLength ==> -1 <= i < queueLength
    ensures -1 <= currentIndex ==> (i == -1 <==>
      queueLength == 0 || (mode.One? && currentIndex == -1) || (mode.Off? && currentIndex - 1 < 0))
    ensures queueLength > 0 && mode.One? ==> i == currentIndex
    ensures mode.All? && 0 <= currentIndex < queueLength ==> i == (currentIndex - 1 + queueLength) % queueLength
    ensures mode.Off? && i != -1 ==> i == currentIndex - 1
  {
    if queueLength == 0 then -1
    else if mode.One? then currentIndex
    else
      var prev := currentIndex - 1;
      if prev < 0 then (if mode.All? then queueLength - 1 else -1)
      else prev
  }

  /** Under repeat-all, previous undoes next and next undoes previous. */
  lemma PreviousUndoesNextUnderRepeatAll(c: int, n: nat)
    requires 0 <= c < n
    ensures PreviousTrackIndex(NextTrackIndex(c, n, All), n, All) == c
    ensures NextTrackIndex(PreviousTrackIndex(c, n, All), n, All) == c
  {
  }

  /** Without repeat, previous undoes next wherever next does not stop. */
  lemma PreviousUndoesNextWithoutRepeat(c: int, n: nat)
    requires 0 <= c && c + 1 < n
    ensures PreviousTrackIndex(NextTrackIndex(c, n, Off), n, Off) == c
  {
  }

  /** `Math.floor(Math.random() * (i + 1))`: a position in [0, i]. */
  function Pick(r: UnitReal, i: nat): (j: nat)
    ensures j <= i
  {
    RandomIndex(r, i + 1)
  }

  /** The remaining iterations of the shuffle loop, from `i` down to 1; the
      loop's k-th call of Math.random() is `random(k)`. */
  function FisherYatesFrom<T>(s: seq<T>, i: int, random: RandomStream): seq<T>
    requires i < |s|
    decreases i
  {
    if i <= 0 then s
    else FisherYatesFrom(Step(s, i, random), i - 1, random)
  }

  /** One iteration of the shuffle loop: `[s[i], s[j]] = [s[j], s[i]]` with j
      a random slot in [0, i]. */
  function Step<T>(s: seq<T>, i: nat, random: RandomStream): (r: seq<T>)
    requires i < |s|
    ensures |r| == |s|
  {
    var j := Pick(random(|s| - 1 - i), i);
    s[i := s[j]][j := s[i]]
  }

  /** A swap moves elements and loses none. */
  lemma StepPermutes<T>(s: seq<T>, i: nat, random: RandomStream)
    requires i < |s|
    ensures multiset(Step(s, i, random)) == multiset(s)
  {
  }

  /** What `shuffleArray` returns for the given random draws. */
  function Shuffle<T>(s: seq<T>, random: RandomStream): (r: seq<T>)
    ensures |r| == |s|
  {
    FisherYatesPermutes(s, |s| - 1, random);
    FisherYatesFrom(s, |s| - 1, random)
  }

  lemma {:induction false} FisherYatesPermutes<T>(s: seq<T>, i: int, random: RandomStream)
    requires i < |s|
    ensures |FisherYatesFrom(s, i, random)| == |s|
    ensures multiset(FisherYatesFrom(s, i, random)) == multiset(s)
    decreases i
  {
    if i > 0 {
      var t := Step(s, i, random);
      StepPermutes(s, i, random);
      FisherYatesPermutes(t, i - 1, random);
      assert FisherYatesFrom(s, i, random) == FisherYatesFrom(t, i - 1, random);
    }
  }

  /** Whatever Math.random() returns, the shuffle is a permutation of its input. */
  lemma ShufflePermutes<T>(s: seq<T>, random: RandomStream)
    ensures |Shuffle(s, random)| == |s|
    ensures multiset(Shuffle(s, random)) == multiset(s)
  {
    FisherYatesPermutes(s, |s| - 1, random);
  }

  /** The loop's swap of slot `slot` with the slot `j` drawn by the `draw`-th
      call of Math.random(), seen after the loop counter has moved down to
      k, is one step of the shuffle. */
  lemma StepUnfolds<T>(before: seq<T>, k: nat, slot: nat, draw: nat, j: nat, random: RandomStream)
    requires slot == k + 1 && slot < |before| && draw == |before| - 1 - slot
    requires j == Pick(random(draw), slot)
    ensures FisherYatesFrom(before, k + 1, random)
         == FisherYatesFrom(before[k + 1 := before[j]][j := before[k + 1]], k, random)
  {
    assert Step(before, slot, random) == before[slot := before[j]][j := before[slot]];
  }

  /** `[...array]`: a fresh array with the same elements. */
  method Copy<T>(input: array<T>) returns (a: array<T>)
    ensures fresh(a) && a[..] == input[..]
  {
    a := new T[input.Length](k reads input requires 0 <= k < input.Length => input[k]);
  }

  /** The shuffle loop, in place: `for (i = length - 1; i > 0; i--)` swapping
      slot i with a random slot in [0, i]. */
  method ShuffleInPlace<T>(a: array<T>, random: RandomStream)
    modifies a
    ensures a[..] == Shuffle(old(a[..]), random)
  {
    ghost var original := a[..];
    ghost var current := original;
    var i := a.Length - 1;
    while i > 0
      invariant -1 <= i < a.Length && (a.Length > 0 ==> i >= 0)
      invariant a[..] == current && |current| == a.Length
      invariant FisherYatesFrom(current, i, random) == Shuffle(original, random)
    {
      ghost var slot, draw := i, a.Length - 1 - i;
      var j := Pick(random(a.Length - 1 - i), i);
      var t := a[i];
      a[i] := a[j];
      a[j] := t;
      i := i - 1;
      StepUnfolds(current, i, slot, draw, j, random);
      current := current[i + 1 := current[j]][j := current[i + 1]];
    }
  }

  /** `shuffleArray`: shuffles a copy, so the input array is read only. */
  method ShuffleArray<T>(input: array<T>, random: RandomStream) returns (shuffled: seq<T>)
    ensures shuffled == Shuffle(input[..], random)
    ensures |shuffled| == input.Length && multiset(shuffled) == multiset(input[..])
  {
    var a := Copy(input);
    ShuffleInPlace(a, random);
    shuffled := a[..];
    ShufflePermutes(input[..], random);
  }

  /** `queue` holds the tracks of `tracks`, each as often: the order may differ. */
  predicate QueueIsPermutation(s: State)
  {
    multiset(s.queue) == multiset(s.tracks)
  }

  /** `currentIndex` is -1 or a position in the queue. */
  predicate IndexInQueue(s: State)
  {
    -1 <= s.currentIndex < |s.queue|
  }

  /** Everything but the position fields that NEXT_TRACK and PREVIOUS_TRACK set. */
  predicate SameExceptPosition(s: State, r: State)
  {
    r == s.(currentIndex := r.currentIndex, currentTrack := r.currentTrack, currentTime := r.currentTime, error := r.error)
  }

  /** `playerReducer`. */
  function Reduce(s: State, action: Action): (r: State)
    ensures action.SetCurrentTrack? ==>
      r.currentTrack == action.track && r.currentIndex == action.index &&
      r.currentTime == 0.0 && r.duration == 0.0 && r.error == None
    ensures action.SetVolume? ==> r.volume == action.level && (r.isMuted <==> action.level == 0.0)
    ensures action.SetError? ==> !r.isPlaying && !r.isLoading && r.error == Some(action.message)
    ensures action.SetShuffle? ==> r.isShuffled == action.shuffled && r.currentIndex == s.currentIndex
    ensures action.SetShuffle? && !action.shuffled ==> r.queue == s.tracks
    ensures action.SetShuffle? && action.shuffled ==> r.queue == Shuffle(s.tracks, action.random)
    ensures action.NextTrack? ==> r.currentIndex == NextTrackIndex(s.currentIndex, |s.queue|, s.repeatMode)
    ensures action.PreviousTrack? ==> r.currentIndex == PreviousTrackIndex(s.currentIndex, |s.queue|, s.repeatMode)
    ensures action.NextTrack? || action.PreviousTrack? ==>
      r.currentTrack == At(s.queue, r.currentIndex) && r.currentTime == 0.0 && r.error == None &&
      SameExceptPosition(s, r)
    ensures action.ResetPlayer? ==> r == Initial().(tracks := s.tracks, queue := s.queue)
    ensures action.Unknown? ==> r == s
    ensures QueueIsPermutation(s) ==> QueueIsPermutation(r)
  {
    match action
    case SetTracks(ts) => s.(tracks := ts, queue := ts)
    case SetCurrentTrack(track, index) =>
      s.(currentTrack := track, currentIndex := index, currentTime := 0.0, duration := 0.0, error := None)
    case Play => s.(isPlaying := true, error := None)
    case Pause => s.(isPlaying := false)
    case SetLoading(loading) => s.(isLoading := loading)
    case SetTime(time) => s.(currentTime := time)
    case SetDuration(length) => s.(duration := length)
    case SetVolume(level) => s.(volume := level, isMuted := level == 0.0)
    case ToggleMute => s.(isMuted := !s.isMuted)
    case SetShuffle(shuffled, random) =>
      ShufflePermutes(s.tracks, random);
      s.(isShuffled := shuffled, queue := if shuffled then Shuffle(s.tracks, random) else s.tracks)
    case SetRepeat(mode) => s.(repeatMode := mode)
    case SetPlaybackRate(rate) => s.(playbackRate := rate)
    case ToggleFullscreen => s.(isFullscreen := !s.isFullscreen, isMiniPlayer := false)
    case ToggleMiniPlayer => s.(isMiniPlayer := !s.isMiniPlayer, isFullscreen := false)
    case SetVisualizerData(data) => s.(visualizerData := data)
    case SetAudioContext(context, analyserNode, buffer, sourceNode) =>
      s.(audioContext := Some(context), analyser := Some(analyserNode), dataArray := Some(buffer), source := Some(sourceNode))
    case SetError(message) => s.(error := Some(message), isLoading := false, isPlaying := false)
    case NextTrack =>
      var next := NextTrackIndex(s.currentIndex, |s.queue|, s.repeatMode);
      s.(currentIndex := next, currentTrack := if next != -1 then At(s.queue, next) else None,
         currentTime := 0.0, error := None)
    case PreviousTrack =>
      var prev := PreviousTrackIndex(s.currentIndex, |s.queue|, s.repeatMode);
      s.(currentIndex := prev, currentTrack := if prev != -1 then At(s.queue, prev) else None,
         currentTime := 0.0, error := None)
    case ResetPlayer => Initial().(tracks := s.tracks, queue := s.queue)
    case Unknown(_) => s
  }

  /** Next and previous keep the index at -1 or inside the queue, and the
      current track is then the queue entry at that index. */
  lemma NavigationKeepsIndexInQueue(s: State, action: Action)
    requires IndexInQueue(s) && (action.NextTrack? || action.PreviousTrack?)
    ensures IndexInQueue(Reduce(s, action))
    ensures Reduce(s, action).currentIndex >= 0 ==>
      Reduce(s, action).currentTrack == Some(s.queue[Reduce(s, action).currentIndex])
  {
  }

  /** Toggling shuffle on and then off gives back the catalog order. */
  lemma ShuffleOffRestoresOrder(s: State, random: RandomStream, other: RandomStream)
    ensures Reduce(Reduce(s, SetShuffle(true, random)), SetShuffle(false, other)).queue == s.tracks
  {
  }

  /** Every state the reducer reaches from `initialState` keeps the queue a
      permutation of the tracks. */
  lemma {:induction false} ReachableQueueIsPermutation(actions: seq<Action>)
    ensures QueueIsPermutation(Run(Initial(), actions))
  {
    if actions != [] {
      ReachableQueueIsPermutation(actions[..|actions| - 1]);
    }
  }

  /** Dispatching a sequence of actions in order. */
  function Run(s: State, actions: seq<Action>): State
  {
    if actions == [] then s else Reduce(Run(s, actions[..|actions| - 1]), actions[|actions| - 1])
  }

  /** SET_REPEAT_MODE changes the repeat mode and nothing else. */
  lemma ReduceSetRepeat(s: State, mode: Repeat)
    ensures Reduce(s, Action.SetRepeat(mode)) == s.(repeatMode := mode)
  {
  }

  /** PAUSE, TOGGLE_MUTE and SET_PLAYBACK_RATE each change one field and nothing else. */
  lemma ReduceTransportFields(s: State, rate: real)
    ensures Reduce(s, Action.Pause) == s.(isPlaying := false)
    ensures Reduce(s, Action.ToggleMute) == s.(isMuted := !s.isMuted)
    ensures Reduce(s, Action.SetPlaybackRate(rate)) == s.(playbackRate := rate)
  {
  }

  /** `PlayerProvider`: the reducer's state and the `<audio>` element the
      commands write to (`audioRef.current`, absent before mount). */
  class PlayerProvider {
    var state: State
    var hasAudio: bool
    var audioVolume: real
    var audioMuted: bool
    var audioTime: real
    var audioRate: real
    var audioPaused: bool

    constructor (hasAudio: bool)
      ensures state == Initial() && this.hasAudio == hasAudio
      ensures audioVolume == 1.0 && !audioMuted && audioTime == 0.0 && audioRate == 1.0 && audioPaused
    {
      state := Initial();
      this.hasAudio := hasAudio;
      audioVolume, audioMuted, audioTime, audioRate := 1.0, false, 0.0, 1.0;
      audioPaused := true;
    }

    /** `setVolume`: clamps to [0, 1], writes the element, dispatches SET_VOLUME. */
    method SetVolume(level: real)
      modifies this
      ensures 0.0 <= state.volume <= 1.0 && state.volume == Clamp(0.0, 1.0, level)
      ensures state.isMuted <==> state.volume == 0.0
      ensures state == Reduce(old(state), Action.SetVolume(Clamp(0.0, 1.0, level)))
      ensures audioVolume == if hasAudio then state.volume else old(audioVolume)
      ensures hasAudio == old(hasAudio) && audioMuted == old(audioMuted)
      ensures audioTime == old(audioTime) && audioRate == old(audioRate) && audioPaused == old(audioPaused)
    {
      var clamped := Clamp(0.0, 1.0, level);
      if hasAudio {
        audioVolume := clamped;
      }
      state := Reduce(state, Action.SetVolume(clamped));
    }

    /** `setRepeatMode`: the next mode of the none -> all -> one cycle. */
    method SetRepeatMode()
      modifies this`state
      ensures state == old(state).(repeatMode := NextMode(NoneAllOne, old(state).repeatMode))
      ensures state.repeatMode != old(state).repeatMode
    {
      var mode := NextMode(NoneAllOne, state.repeatMode);
      RepeatCyclesAreInverse(state.repeatMode);
      ReduceSetRepeat(state, mode);
      state := Reduce(state, Action.SetRepeat(mode));
    }

    /** `toggleShuffle`: flips the flag; turning it on reshuffles the tracks,
      turning it off restores them; the current index is not remapped. */
    method ToggleShuffle(random: RandomStream)
      modifies this`state
      ensures state.isShuffled == !old(state).isShuffled
      ensures state.currentIndex == old(state).currentIndex
      ensures multiset(state.queue) == multiset(old(state).tracks)
      ensures !state.isShuffled ==> state.queue == old(state).tracks
      ensures state == Reduce(old(state), Action.SetShuffle(!old(state).isShuffled, random))
    {
      ShufflePermutes(state.tracks, random);
      state := Reduce(state, Action.SetShuffle(!state.isShuffled, random));
    }

    /** `playTrack`: SET_CURRENT_TRACK then SET_LOADING(true). */
    method PlayTrack(track: Track, index: int)
      modifies this`state
      ensures state == Reduce(Reduce(old(state), Action.SetCurrentTrack(Some(track), index)), Action.SetLoading(true))
      ensures state.currentTime == 0.0 && state.duration == 0.0 && state.isLoading
    {
      state := Reduce(state, Action.SetCurrentTrack(Some(track), index));
      state := Reduce(state, Action.SetLoading(true));
    }

    /** `play`, with the outcome of the element's play() promise as a parameter;
      the element leaves its paused state only when the promise resolves. */
    method Play(succeeds: bool, message: string)
      modifies this`state, this`audioPaused
      ensures !hasAudio ==> state == old(state)
      ensures hasAudio && succeeds ==> state == old(state).(isPlaying := true, error := None, isLoading := false)
      ensures hasAudio && !succeeds ==> state == Reduce(old(state), Action.SetError(message)) && !state.isPlaying
      ensures audioPaused == if hasAudio && succeeds then false else old(audioPaused)
    {
      if hasAudio {
        if succeeds {
          audioPaused := false;
          state := Reduce(state, Action.Play);
          state := Reduce(state, Action.SetLoading(false));
        } else {
          state := Reduce(state, Action.SetError(message));
        }
      }
    }

    /** `pause`: pauses the element and dispatches PAUSE; nothing happens without the element. */
    method Pause()
      modifies this`state, this`audioPaused
      ensures hasAudio ==> audioPaused && state == old(state).(isPlaying := false)
      ensures !hasAudio ==> audioPaused == old(audioPaused) && state == old(state)
    {
      if hasAudio {
        audioPaused := true;
        ReduceTransportFields(state, state.playbackRate);
        state := Reduce(state, Action.Pause);
      }
    }

    /** `togglePlay`: `pause` while the state says playing, `play` otherwise. */
    method TogglePlay(succeeds: bool, message: string)
      modifies this`state, this`audioPaused
      ensures !hasAudio ==> state == old(state) && audioPaused == old(audioPaused)
      ensures hasAudio && old(state).isPlaying ==> audioPaused && state == old(state).(isPlaying := false)
      ensures hasAudio && !old(state).isPlaying && succeeds ==>
        !audioPaused && state == old(state).(isPlaying := true, error := None, isLoading := false)
      ensures hasAudio && !old(state).isPlaying && !succeeds ==>
        audioPaused == old(audioPaused) && state == Reduce(old(state), Action.SetError(message)) &&
        !state.isPlaying && state.error == Some(message)
    {
      if state.isPlaying {
        Pause();
      } else {
        Play(succeeds, message);
      }
    }

    /** `toggleMute`: mutes or unmutes the element to the negation of the
      state's flag and dispatches TOGGLE_MUTE; nothing happens without the element. */
    method ToggleMute()
      modifies this`state, this`audioMuted
      ensures hasAudio ==> audioMuted == !old(state).isMuted && state == old(state).(isMuted := !old(state).isMuted)
      ensures hasAudio ==> audioMuted == state.isMuted
      ensures !hasAudio ==> audioMuted == old(audioMuted) && state == old(state)
    {
      if hasAudio {
        audioMuted := !state.isMuted;
        ReduceTransportFields(state, state.playbackRate);
        state := Reduce(state, Action.ToggleMute);
      }
    }

    /** `setPlaybackRate`: writes the element when there is one, and dispatches
      SET_PLAYBACK_RATE either way; the rate is not clamped. */
    method SetPlaybackRate(rate: real)
      modifies this`state, this`audioRate
      ensures audioRate == if hasAudio then rate else old(audioRate)
      ensures state == old(state).(playbackRate := rate)
    {
      if hasAudio {
        audioRate := rate;
      }
      ReduceTransportFields(state, rate);
      state := Reduce(state, Action.SetPlaybackRate(rate));
    }

    /** `seekTo`: no clamp here; nothing happens without the element. */
    method SeekTo(time: real)
      modifies this`state, this`audioTime
      ensures hasAudio ==> audioTime == time && state == old(state).(currentTime := time)
      ensures !hasAudio ==> audioTime == old(audioTime) && state == old(state)
    {
      if hasAudio {
        audioTime := time;
        state := Reduce(state, Action.SetTime(time));
      }
    }

    /** `nextTrack` and `previousTrack` dispatch their actions unchanged. */
    method NextTrack()
      modifies this`state
      ensures state == Reduce(old(state), Action.NextTrack)
      ensures IndexInQueue(old(state)) ==> IndexInQueue(state)
    {
      if IndexInQueue(state) {
        NavigationKeepsIndexInQueue(state, Action.NextTrack);
      }
      state := Reduce(state, Action.NextTrack);
    }

    method PreviousTrack()
      modifies this`state
      ensures state == Reduce(old(state), Action.PreviousTrack)
      ensures IndexInQueue(old(state)) ==> IndexInQueue(state)
    {
      if IndexInQueue(state) {
        NavigationKeepsIndexInQueue(state, Action.PreviousTrack);
      }
      state := Reduce(state, Action.PreviousTrack);
    }
  }
}
