/** The playback controls' state: pause, the repeat-mode cycle and shuffle. */
module SongControls {
  import opened Wrappers

  /** The repeat mode's `type`: `'none' | 'one' | 'all'`. */
  datatype RepeatKind = RepeatNone | RepeatOne | RepeatAll

  /** `isActive` absent reads as falsy. */
  datatype RepeatMode = RepeatMode(kind: RepeatKind, title: string, icon: string, isActive: Option<bool>)

  /** `repeatModes`, in cycle order. */
  const RepeatModes: seq<RepeatMode> := [
    RepeatMode(RepeatNone, "Repeat off", "repeat", None),
    RepeatMode(RepeatOne, "Repeat 1 track", "repeat_one", Some(true)),
    RepeatMode(RepeatAll, "Repeat all", "repeat", Some(true))
  ]

  /** `modes.indexOf(m)`: the first index holding `m`, or -1. */
  function IndexOf(modes: seq<RepeatMode>, m: RepeatMode): (r: int)
    ensures -1 <= r < |modes|
    ensures r == -1 <==> m !in modes
    ensures r >= 0 ==> modes[r] == m && forall j :: 0 <= j < r ==> modes[j] != m
    decreases |modes|
  {
    if |modes| == 0 then -1
    else if modes[0] == m then 0
    else var k := IndexOf(modes[1..], m); if k == -1 then -1 else k + 1
  }

  /** The updater of `toggleRepeatMode`: the mode after `m` in the cycle. */
  function NextRepeatMode(m: RepeatMode): (r: RepeatMode)
    ensures r in RepeatModes
  {
    RepeatModes[(IndexOf(RepeatModes, m) + 1) % |RepeatModes|]
  }

  /** none -> one -> all -> none. */
  lemma RepeatCycle()
    ensures NextRepeatMode(RepeatModes[0]) == RepeatModes[1]
    ensures NextRepeatMode(RepeatModes[1]) == RepeatModes[2]
    ensures NextRepeatMode(RepeatModes[2]) == RepeatModes[0]
  {
    assert IndexOf(RepeatModes, RepeatModes[1]) == 1;
    assert IndexOf(RepeatModes, RepeatModes[2]) == 2;
  }

  /** A mode outside the table (indexOf gives -1) goes to the first mode. */
  lemma UnknownModeResets(m: RepeatMode)
    requires m !in RepeatModes
    ensures NextRepeatMode(m) == RepeatModes[0]
  {
  }

  /** Three toggles bring any mode of the cycle back. */
  lemma ThreeTogglesReturn(m: RepeatMode)
    requires m in RepeatModes
    ensures NextRepeatMode(NextRepeatMode(NextRepeatMode(m))) == m
  {
    RepeatCycle();
  }

  /** The repeat icon is highlighted for one and all, not for none. */
  predicate IsActive(m: RepeatMode) {
    m.isActive == Some(true)
  }

  lemma ActiveIffRepeating(m: RepeatMode)
    requires m in RepeatModes
    ensures IsActive(m) <==> m.kind != RepeatNone
  {
  }

  /** The pause button's title and icon. */
  function PauseButton(isPaused: bool): (r: (string, string))
    ensures isPaused ==> r == ("Resume", "play_arrow")
    ensures !isPaused ==> r == ("Pause", "pause")
  {
    if isPaused then ("Resume", "play_arrow") else ("Pause", "pause")
  }

  /** The queue button's title for the parent's `isQueueShown`. */
  function QueueButtonTitle(isQueueShown: bool): (r: string)
    ensures isQueueShown ==> r == "Hide queue"
    ensures !isQueueShown ==> r == "Show queue"
  {
    if isQueueShown then "Hide queue" else "Show queue"
  }

  class Controls {
    var isPaused: bool
    var repeatMode: RepeatMode
    var isShuffleMode: bool

    /** Playing, repeat off, shuffle off. */
    constructor ()
      ensures !isPaused && repeatMode == RepeatModes[0] && !isShuffleMode
    {
      isPaused := false;
      repeatMode := RepeatModes[0];
      isShuffleMode := false;
    }

    method TogglePause()
      modifies this`isPaused
      ensures isPaused == !old(isPaused)
    {
      isPaused := !isPaused;
    }

    method ToggleRepeatMode()
      modifies this`repeatMode
      ensures repeatMode == NextRepeatMode(old(repeatMode))
    {
      repeatMode := NextRepeatMode(repeatMode);
    }

    method ToggleShuffleMode()
      modifies this`isShuffleMode
      ensures isShuffleMode == !old(isShuffleMode)
    {
      isShuffleMode := !isShuffleMode;
    }
  }
}
