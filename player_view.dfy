/**
 * The player bar (src/components/player/Player.tsx): its volume, mute and
 * seek state, the values it writes into the audio element, and the events it
 * forwards to the store.
 */
module PlayerView {
  import opened Playback
  import Store

  /** The volume the audio element plays at: silent while muted, the stored volume otherwise. */
  function EffectiveVolume(isMuted: bool, volume: real): (v: real)
    ensures isMuted ==> v == 0.0
    ensures !isMuted ==> v == volume
    ensures 0.0 <= volume <= 1.0 ==> 0.0 <= v <= 1.0
  {
    if isMuted then 0.0 else volume
  }

  /** The speaker icon is crossed out when muted or at zero volume. */
  predicate ShowsMutedIcon(isMuted: bool, volume: real) {
    isMuted || volume == 0.0
  }

  /** The crossed-out icon shows exactly when nothing is audible. */
  lemma MutedIconIffSilent(isMuted: bool, volume: real)
    ensures ShowsMutedIcon(isMuted, volume) <==> EffectiveVolume(isMuted, volume) == 0.0
  {
  }

  /**
   * The component's own state (`volume`, `isMuted`, `currentTime`) and the
   * two properties of the audio element it writes (`audio.volume`,
   * `audio.currentTime`).
   */
  class PlayerControls {
    var volume: real
    var isMuted: bool
    var currentTime: real
    var audioVolume: real
    var audioCurrentTime: real

    /** The volume lies in [0, 1] and the volume effect has synchronised the audio element. */
    predicate Valid()
      reads this
    {
      0.0 <= volume <= 1.0 && audioVolume == EffectiveVolume(isMuted, volume)
    }

    /** Full volume, not muted, at the start of the track. */
    constructor ()
      ensures Valid()
      ensures volume == 1.0 && !isMuted && currentTime == 0.0
      ensures audioVolume == 1.0 && audioCurrentTime == 0.0
    {
      volume, isMuted, currentTime := 1.0, false, 0.0;
      audioVolume, audioCurrentTime := 1.0, 0.0;
    }

    /** The value the volume slider shows. */
    function SliderValue(): (v: real)
      reads this
      requires Valid()
      ensures v == audioVolume
      ensures isMuted ==> v == 0.0
      ensures !isMuted ==> v == volume
    {
      if isMuted then 0.0 else volume
    }

    /** The volume effect: write the effective volume into the audio element. */
    method ApplyVolume()
      modifies this
      requires 0.0 <= volume <= 1.0
      ensures Valid()
      ensures volume == old(volume) && isMuted == old(isMuted) && currentTime == old(currentTime)
      ensures audioCurrentTime == old(audioCurrentTime)
    {
      audioVolume := if isMuted then 0.0 else volume;
    }

    /**
     * handleVolumeChange: store the slider value; a positive value unmutes,
     * zero leaves the mute flag as it was. The volume effect then runs.
     */
    method HandleVolumeChange(val: real)
      requires Valid() && 0.0 <= val <= 1.0
      modifies this
      ensures Valid()
      ensures volume == val
      ensures isMuted == (if val > 0.0 then false else old(isMuted))
      ensures currentTime == old(currentTime) && audioCurrentTime == old(audioCurrentTime)
    {
      volume := val;
      if val > 0.0 {
        isMuted := false;
      }
      ApplyVolume();
    }

    /** toggleMute: flip the mute flag only; the stored volume is kept. The volume effect then runs. */
    method ToggleMute()
      requires Valid()
      modifies this
      ensures Valid()
      ensures isMuted == !old(isMuted) && volume == old(volume)
      ensures currentTime == old(currentTime) && audioCurrentTime == old(audioCurrentTime)
    {
      isMuted := !isMuted;
      ApplyVolume();
    }

    /** handleSeek: the audio element and the shown time both jump to exactly the requested time. */
    method HandleSeek(time: real)
      requires Valid()
      modifies this
      ensures Valid()
      ensures audioCurrentTime == time && currentTime == time
      ensures volume == old(volume) && isMuted == old(isMuted) && audioVolume == old(audioVolume)
    {
      audioCurrentTime := time;
      currentTime := time;
    }

    /** onTimeUpdate: the shown time follows the audio element. */
    method OnTimeUpdate()
      requires Valid()
      modifies this
      ensures Valid()
      ensures currentTime == audioCurrentTime && audioCurrentTime == old(audioCurrentTime)
      ensures volume == old(volume) && isMuted == old(isMuted) && audioVolume == old(audioVolume)
    {
      currentTime := audioCurrentTime;
    }
  }

  /** Muting and unmuting restores the audible volume: muting never zeroes the stored volume. */
  method MuteThenUnmute(controls: PlayerControls)
    requires controls.Valid()
    modifies controls
    ensures controls.Valid()
    ensures controls.volume == old(controls.volume) && controls.isMuted == old(controls.isMuted)
    ensures controls.audioVolume == old(controls.audioVolume)
  {
    controls.ToggleMute();
    controls.ToggleMute();
  }

  /** The actions the operating system's media controls can trigger. */
  datatype MediaAction = Play | Pause | PreviousTrack | NextTrack

  /** The media-session handlers: play and pause set the flag, previous and next step the queue. */
  method HandleMediaAction(store: Store.PlayerStore, action: MediaAction)
    modifies store
    ensures action == Play ==> store.State() == SetIsPlaying(old(store.State()), true)
    ensures action == Pause ==> store.State() == SetIsPlaying(old(store.State()), false)
    ensures action == PreviousTrack ==> store.State() == PlayPrevious(old(store.State()))
    ensures action == NextTrack ==> store.State() == PlayNext(old(store.State()))
  {
    match action
    case Play => store.SetIsPlaying(true);
    case Pause => store.SetIsPlaying(false);
    case PreviousTrack => store.PlayPrevious();
    case NextTrack => store.PlayNext();
  }

  /** onEnded: when a track finishes the store moves to the next one. */
  method OnEnded(store: Store.PlayerStore)
    modifies store
    ensures store.State() == PlayNext(old(store.State()))
  {
    store.PlayNext();
  }

  /** The play/pause button flips the playing flag. */
  method OnPlayPauseClick(store: Store.PlayerStore)
    modifies store
    ensures store.State() == SetIsPlaying(old(store.State()), !old(store.isPlaying))
  {
    store.SetIsPlaying(!store.isPlaying);
  }

  /** A row of the full-screen up-next list plays its song smartly. */
  method OnUpNextClick(store: Store.PlayerStore, song: Song)
    modifies store
    ensures store.State() == PlaySmart(old(store.State()), song)
  {
    store.PlaySmart(song);
  }
}
