/**
 * The control state shared by `VideoPlayer` and `AudioPlayer`: play/pause,
 * the playback position and length, the volume and the mute flag, together
 * with the `muted` flag the handlers write to the media element. Both
 * components keep the same state with the same handlers; the video player
 * adds a fullscreen button.
 *
 * Times are whole seconds and the volume is a real in [0, 1]. Each handler
 * is a function on the state; the `Player` class holds the fields and its
 * methods follow those functions.
 */
module PlayerControls {
  import opened Wrappers
  import opened TimeFormat

  datatype Controls = Controls(
    isPlaying: bool,
    currentTime: nat,
    duration: nat,
    volume: real,
    isMuted: bool,
    /** The media element's own `muted` property, as the handlers set it. */
    elementMuted: bool)

  /** The `useState` defaults: paused at 0 s of 0 s, full volume, not muted. */
  const Initial: Controls := Controls(false, 0, 0, 1.0, false, false)

  /** The volume stays in the slider's range. */
  predicate VolumeInRange(c: Controls)
  {
    0.0 <= c.volume <= 1.0
  }

  /** The mute button and the element agree on whether sound is off. */
  predicate Synced(c: Controls)
  {
    c.elementMuted == c.isMuted
  }

  /** `togglePlay`: pause if playing, play otherwise. */
  function TogglePlayStep(c: Controls): Controls
  {
    c.(isPlaying := !c.isPlaying)
  }

  /** `handleSeek`: the element and the state both jump to the slider value. */
  function SeekStep(c: Controls, value: nat): Controls
  {
    c.(currentTime := value)
  }

  /**
   * `handleVolumeChange` as written: the volume and the mute flag follow the
   * slider, but the element's `muted` property is not touched.
   */
  function VolumeChangeAsWritten(c: Controls, value: real): Controls
  {
    c.(volume := value, isMuted := value == 0.0)
  }

  /** `handleVolumeChange` with the element's `muted` property kept in step with the mute flag. */
  function VolumeChangeStep(c: Controls, value: real): Controls
  {
    c.(volume := value, isMuted := value == 0.0, elementMuted := value == 0.0)
  }

  /** `toggleMute`: `element.muted = !isMuted; setIsMuted(!isMuted)`. */
  function ToggleMuteStep(c: Controls): Controls
  {
    c.(elementMuted := !c.isMuted, isMuted := !c.isMuted)
  }

  /** The element's `timeupdate` event. */
  function TimeUpdateStep(c: Controls, time: nat): Controls
  {
    c.(currentTime := time)
  }

  /** The element's `loadedmetadata` event. */
  function LoadedMetadataStep(c: Controls, duration: nat): Controls
  {
    c.(duration := duration)
  }

  /** The element's `ended` event: playback stops. */
  function EndedStep(c: Controls): Controls
  {
    c.(isPlaying := false)
  }

  /** Whether `ended` goes on to call `onNext`: `if (hasNext && onNext) onNext()`. */
  predicate EndedAdvances(hasNext: bool, hasOnNext: bool)
  {
    hasNext && hasOnNext
  }

  /** The volume slider's value: `isMuted ? 0 : volume`. */
  function DisplayedVolume(c: Controls): real
  {
    if c.isMuted then 0.0 else c.volume
  }

  /** The seek slider's maximum: `duration || 100`. */
  function SeekMax(c: Controls): nat
  {
    if c.duration == 0 then 100 else c.duration
  }

  /** What the controls show. */
  datatype ControlsView = ControlsView(
    showsPause: bool,
    showsMutedIcon: bool,
    seekValue: nat,
    seekMax: nat,
    volumeValue: real,
    elapsed: string,
    total: string,
    previousDisabled: bool,
    nextDisabled: bool)

  function View(c: Controls, hasNext: bool, hasPrevious: bool): ControlsView
  {
    ControlsView(c.isPlaying, c.isMuted, c.currentTime, SeekMax(c), DisplayedVolume(c),
                 FormatTime(c.currentTime), FormatTime(c.duration), !hasPrevious, !hasNext)
  }

  // ---------------------------------------------------------------------------
  // Properties of the handlers

  /** `togglePlay` flips the play state, changes nothing else, and undoes itself. */
  lemma TogglePlayFlips(c: Controls)
    ensures TogglePlayStep(c).isPlaying == !c.isPlaying
    ensures TogglePlayStep(c).(isPlaying := c.isPlaying) == c
    ensures TogglePlayStep(TogglePlayStep(c)) == c
  {
  }

  /** `handleSeek` moves to the chosen second and keeps playing or paused; the last seek wins. */
  lemma SeekKeepsPlayState(c: Controls, a: nat, b: nat)
    ensures SeekStep(c, a).currentTime == a && SeekStep(c, a).isPlaying == c.isPlaying
    ensures SeekStep(c, a).(currentTime := c.currentTime) == c
    ensures SeekStep(SeekStep(c, a), b) == SeekStep(c, b)
  {
  }

  /** A volume change mutes exactly at zero, and the slider then shows the chosen volume. */
  lemma VolumeChangeShowsValue(c: Controls, v: real)
    ensures VolumeChangeStep(c, v).isMuted <==> v == 0.0
    ensures VolumeChangeStep(c, v).volume == v
    ensures DisplayedVolume(VolumeChangeStep(c, v)) == v
  {
  }

  /** Muting flips the mute flag and keeps the stored volume; the slider drops to 0 while muted. */
  lemma ToggleMuteKeepsVolume(c: Controls)
    ensures ToggleMuteStep(c).isMuted == !c.isMuted
    ensures ToggleMuteStep(c).volume == c.volume
    ensures !c.isMuted ==> DisplayedVolume(ToggleMuteStep(c)) == 0.0
    ensures c.isMuted ==> DisplayedVolume(ToggleMuteStep(c)) == c.volume
  {
  }

  /** On a synced state, muting twice gives back the same state. */
  lemma ToggleMuteInvolution(c: Controls)
    requires Synced(c)
    ensures ToggleMuteStep(ToggleMuteStep(c)) == c
  {
  }

  /** Set a volume, mute, unmute: the slider shows the volume that was set. */
  lemma MuteThenUnmuteRestores(c: Controls, v: real)
    requires 0.0 < v <= 1.0
    ensures DisplayedVolume(ToggleMuteStep(VolumeChangeStep(c, v))) == 0.0
    ensures DisplayedVolume(ToggleMuteStep(ToggleMuteStep(VolumeChangeStep(c, v)))) == v
  {
  }

  /** The concrete case: 0.7, mute, unmute shows 0.7. */
  lemma MuteUnmuteAtSevenTenths(c: Controls)
    ensures DisplayedVolume(ToggleMuteStep(ToggleMuteStep(VolumeChangeStep(c, 0.7)))) == 0.7
  {
    MuteThenUnmuteRestores(c, 0.7);
  }

  /** `ended` stops playback and keeps the position, length, volume and mute state. */
  lemma EndedStops(c: Controls)
    ensures !EndedStep(c).isPlaying
    ensures EndedStep(c).(isPlaying := c.isPlaying) == c
  {
  }

  /** Every handler keeps the volume in range and the element in step with the mute flag. */
  lemma HandlersPreserveInvariants(c: Controls, t: nat, v: real)
    requires VolumeInRange(c) && Synced(c)
    requires 0.0 <= v <= 1.0
    ensures VolumeInRange(TogglePlayStep(c)) && Synced(TogglePlayStep(c))
    ensures VolumeInRange(SeekStep(c, t)) && Synced(SeekStep(c, t))
    ensures VolumeInRange(VolumeChangeStep(c, v)) && Synced(VolumeChangeStep(c, v))
    ensures VolumeInRange(ToggleMuteStep(c)) && Synced(ToggleMuteStep(c))
    ensures VolumeInRange(TimeUpdateStep(c, t)) && Synced(TimeUpdateStep(c, t))
    ensures VolumeInRange(LoadedMetadataStep(c, t)) && Synced(LoadedMetadataStep(c, t))
    ensures VolumeInRange(EndedStep(c)) && Synced(EndedStep(c))
  {
  }

  lemma InitialValid()
    ensures VolumeInRange(Initial) && Synced(Initial)
  {
  }

  /**
   * The handler as written breaks the agreement: mute, then drag the volume
   * to 0.5, and the button shows sound on while the element stays muted.
   */
  lemma VolumeChangeAsWrittenDesyncs()
    ensures Synced(ToggleMuteStep(Initial))
    ensures var c := VolumeChangeAsWritten(ToggleMuteStep(Initial), 0.5);
      !c.isMuted && c.elementMuted && !Synced(c)
  {
  }

  /** The correction changes only the element's flag; everything the controls show is as written. */
  lemma VolumeChangeCorrectionOnlyTouchesElement(c: Controls, v: real)
    ensures VolumeChangeStep(c, v).(elementMuted := c.elementMuted) == VolumeChangeAsWritten(c, v)
    ensures View(VolumeChangeStep(c, v), true, true) == View(VolumeChangeAsWritten(c, v), true, true)
  {
  }

  // ---------------------------------------------------------------------------
  // Properties of the rendered controls

  /** The volume slider reads 0 exactly when muted or at zero volume, and stays within [0, 1]. */
  lemma ViewVolume(c: Controls, hasNext: bool, hasPrevious: bool)
    requires VolumeInRange(c)
    ensures var v := View(c, hasNext, hasPrevious);
      && 0.0 <= v.volumeValue <= 1.0
      && (v.volumeValue == 0.0 <==> c.isMuted || c.volume == 0.0)
  {
  }

  /** The skip buttons are disabled exactly when there is no item to skip to. */
  lemma ViewButtons(c: Controls, hasNext: bool, hasPrevious: bool)
    ensures View(c, hasNext, hasPrevious).nextDisabled <==> !hasNext
    ensures View(c, hasNext, hasPrevious).previousDisabled <==> !hasPrevious
  {
  }

  /** The seek slider always has a positive range, the length once known and 100 before. */
  lemma ViewSeekRange(c: Controls)
    ensures SeekMax(c) > 0
    ensures c.duration > 0 ==> SeekMax(c) == c.duration
    ensures c.duration == 0 ==> SeekMax(c) == 100
  {
  }

  /** The time labels read back as the position and the length they were formatted from. */
  lemma ViewTimesReadBack(c: Controls, hasNext: bool, hasPrevious: bool)
    ensures ParseTime(View(c, hasNext, hasPrevious).elapsed) == Some(c.currentTime)
    ensures ParseTime(View(c, hasNext, hasPrevious).total) == Some(c.duration)
  {
    FormatTimeRoundTrip(c.currentTime);
    FormatTimeRoundTrip(c.duration);
  }

  // ---------------------------------------------------------------------------
  // The component state as an object

  /**
   * One player's state. `hasElement` says whether the media element is
   * mounted; without it every handler returns at once.
   */
  class Player {
    const hasElement: bool
    var isPlaying: bool
    var currentTime: nat
    var duration: nat
    var volume: real
    var isMuted: bool
    var elementMuted: bool

    function State(): Controls
      reads this
    {
      Controls(isPlaying, currentTime, duration, volume, isMuted, elementMuted)
    }

    constructor(hasElement: bool)
      ensures this.hasElement == hasElement
      ensures State() == Initial
    {
      this.hasElement := hasElement;
      isPlaying := false;
      currentTime := 0;
      duration := 0;
      volume := 1.0;
      isMuted := false;
      elementMuted := false;
    }

    method TogglePlay()
      modifies this
      ensures State() == if hasElement then TogglePlayStep(old(State())) else old(State())
    {
      if !hasElement {
        return;
      }
      isPlaying := !isPlaying;
    }

    method HandleSeek(value: nat)
      modifies this
      ensures State() == if hasElement then SeekStep(old(State()), value) else old(State())
    {
      if !hasElement {
        return;
      }
      currentTime := value;
    }

    method HandleVolumeChange(value: real)
      requires 0.0 <= value <= 1.0
      modifies this
      ensures State() == if hasElement then VolumeChangeStep(old(State()), value) else old(State())
      ensures VolumeInRange(old(State())) ==> VolumeInRange(State())
    {
      if !hasElement {
        return;
      }
      elementMuted := value == 0.0;
      volume := value;
      isMuted := value == 0.0;
    }

    method ToggleMute()
      modifies this
      ensures State() == if hasElement then ToggleMuteStep(old(State())) else old(State())
      ensures Synced(old(State())) ==> Synced(State())
    {
      if !hasElement {
        return;
      }
      elementMuted := !isMuted;
      isMuted := !isMuted;
    }

    /** The listeners are only attached when the element exists. */
    method OnTimeUpdate(time: nat)
      requires hasElement
      modifies this
      ensures State() == TimeUpdateStep(old(State()), time)
    {
      currentTime := time;
    }

    method OnLoadedMetadata(duration: nat)
      requires hasElement
      modifies this
      ensures State() == LoadedMetadataStep(old(State()), duration)
    {
      this.duration := duration;
    }

    /** Returns whether `onNext` is called. */
    method OnEnded(hasNext: bool, hasOnNext: bool) returns (advance: bool)
      requires hasElement
      modifies this
      ensures State() == EndedStep(old(State()))
      ensures advance == EndedAdvances(hasNext, hasOnNext)
    {
      isPlaying := false;
      advance := hasNext && hasOnNext;
    }
  }

}
