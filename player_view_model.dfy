/**
 * The main screen's view model (PlayerViewModel.swift): the four flags derived
 * from the player's status, the button image, the banner flag and the tap command.
 * Each value the Combine subscriptions deliver is a method call here.
 */
module PlayerScreen {
  import opened TrackTitles
  import opened Playback
  import opened Connectivity

  /** `PlayerViewModel.ButtonState`. */
  datatype ButtonState = Preparing | Play | Pause

  /** The four published flags `update(status:)` assigns. */
  datatype ViewState = ViewState(
    isButtonEnabled: bool,
    buttonState: ButtonState,
    playingAnimation: bool,
    showError: bool)

  /** What `update(status:)` shows for a player status. */
  function Present(s: Status): (v: ViewState)
    ensures !v.isButtonEnabled <==> s == Starting || s == PreparingToPlay
    ensures v.showError <==> s == Error
    ensures v.playingAnimation <==> s == Status.Playing
    ensures v.buttonState == Preparing <==> s == Starting || s == PreparingToPlay
    ensures v.buttonState == Pause <==> s == Status.Playing
    ensures v.buttonState == Play <==> s == Error || s == Status.ReadyToPlay
    ensures v.isButtonEnabled <==> v.buttonState != Preparing
  {
    match s
    case Starting => ViewState(false, Preparing, false, false)
    case PreparingToPlay => ViewState(false, Preparing, false, false)
    case Error => ViewState(true, Play, false, true)
    case ReadyToPlay => ViewState(true, Play, false, false)
    case Playing => ViewState(true, Pause, true, false)
  }

  /** `buttonImage`: the asset name for a button state; the three names are distinct. */
  function ButtonImage(b: ButtonState): (name: string)
    ensures name == "" <==> b == Preparing
    ensures name == "play-dark" <==> b == Play
    ensures name == "pause-dark" <==> b == Pause
  {
    match b
    case Preparing => ""
    case Play => "play-dark"
    case Pause => "pause-dark"
  }

  /** The command `playTapped()` sends for the player's current status. */
  function TapCommand(s: Status): (c: TransportCommand)
    ensures c == PauseCommand <==> s == Status.Playing
  {
    if s == Status.Playing then PauseCommand else PlayCommand
  }

  /** The button toggles: the image shows pause exactly when a tap would pause. */
  lemma ImageMatchesTap(s: Status)
    ensures ButtonImage(Present(s).buttonState) == "pause-dark" <==> TapCommand(s) == PauseCommand
    ensures ButtonImage(Present(s).buttonState) == "" <==> !Present(s).isButtonEnabled
  {
  }

  class PlayerViewModel {
    const player: Player
    const reachability: ConnectionObserver
    var trackTitle: TrackTitle
    var isButtonEnabled: bool
    var buttonState: ButtonState
    var playingAnimation: bool
    var showError: bool
    var showBanner: bool

    /** The part of the published state that `update(status:)` owns. */
    ghost function View(): ViewState
      reads this
    {
      ViewState(isButtonEnabled, buttonState, playingAnimation, showError)
    }

    /** The button is enabled exactly when it is not in the preparing state. */
    ghost predicate Valid()
      reads this
    {
      isButtonEnabled == (buttonState != Preparing)
    }

    /**
     * `init(player:reachability:)`: the initial published values. The title
     * subscription is not debounced, so it delivers the player's current title
     * before `init` returns; the debounced status and reachability values arrive later.
     */
    constructor (player: Player, reachability: ConnectionObserver)
      ensures this.player == player && this.reachability == reachability
      ensures Valid()
      ensures buttonState == Preparing && !isButtonEnabled
      ensures !showError && !playingAnimation && !showBanner
      ensures trackTitle == player.trackTitle
    {
      this.player := player;
      this.reachability := reachability;
      trackTitle := player.trackTitle;
      isButtonEnabled := false;
      buttonState := Preparing;
      playingAnimation := false;
      showError := false;
      showBanner := false;
    }

    /**
     * `update(status:)`, run for each delivered status. The new flags depend on
     * `status` alone, so delivering the same status twice changes nothing more.
     */
    method Update(status: Status)
      modifies this`isButtonEnabled, this`buttonState, this`playingAnimation, this`showError
      ensures View() == Present(status)
      ensures Valid()
    {
      match status {
        case Starting =>
          playingAnimation, isButtonEnabled, showError, buttonState := false, false, false, Preparing;
        case PreparingToPlay =>
          playingAnimation, isButtonEnabled, showError, buttonState := false, false, false, Preparing;
        case Error =>
          playingAnimation, isButtonEnabled, showError, buttonState := false, true, true, Play;
        case ReadyToPlay =>
          playingAnimation, isButtonEnabled, showError, buttonState := false, true, false, Play;
        case Playing =>
          playingAnimation, isButtonEnabled, showError, buttonState := true, true, false, Pause;
      }
    }

    /** The track-title subscription: the player's title is copied unchanged. */
    method OnTrackTitle(title: TrackTitle)
      modifies this`trackTitle
      ensures trackTitle == title
    {
      trackTitle := title;
    }

    /** The reachability subscription: the banner shows exactly when the network is unreachable. */
    method OnReachability(reachable: bool)
      modifies this`showBanner
      ensures showBanner == !reachable
    {
      showBanner := !reachable;
    }

    /** `playTapped()`: pause while playing, play otherwise; exactly one command. */
    method PlayTapped()
      requires player.started
      modifies player`commands
      ensures player.commands == old(player.commands) + [TapCommand(player.status)]
    {
      match player.status {
        case Playing => player.Pause();
        case _ => player.Play();
      }
    }
  }
}
