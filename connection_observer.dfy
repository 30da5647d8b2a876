/**
 * The connection-restore latch (ConnectionObserver.swift). The reachability
 * library's `whenReachable` / `whenUnreachable` callbacks are the two methods.
 */
module Connectivity {
  import opened Playback

  class ConnectionObserver {
    const player: Player
    /** Set when the connection was lost during playback; cleared by the next restore. */
    var restorePlaying: bool

    /** The latch is only set while the player's transport exists, so restoring can play. */
    ghost predicate Valid()
      reads this, player
    {
      player.Valid() && (restorePlaying ==> player.started)
    }

    /** `init(player:)`: the latch starts clear; the reachability setup is not modelled. */
    constructor (player: Player)
      requires player.Valid()
      ensures this.player == player
      ensures !restorePlaying
      ensures Valid()
    {
      this.player := player;
      restorePlaying := false;
    }

    /** `onRestoreConnection()`: with the latch set, play once and clear it; otherwise do nothing. */
    method OnRestoreConnection()
      requires Valid()
      modifies this`restorePlaying, player`commands
      ensures Valid()
      ensures !restorePlaying
      ensures player.commands == old(player.commands) + if old(restorePlaying) then [PlayCommand] else []
    {
      if restorePlaying {
        player.Play();
        restorePlaying := false;
      }
    }

    /** `onLostConnection()`: set the latch if the player is playing; never clear it, never command the player. */
    method OnLostConnection()
      requires Valid()
      modifies this`restorePlaying
      ensures Valid()
      ensures restorePlaying == (old(restorePlaying) || player.status == Status.Playing)
    {
      if player.status == Status.Playing {
        restorePlaying := true;
      }
    }
  }

  /**
   * A client of the contracts above: losing the connection while playing and then
   * regaining it twice sends exactly one play command, and losing it while paused
   * sends none.
   */
  method LostWhilePlayingScenario()
  {
    var player := new Player();
    player.Start(true);
    var observer := new ConnectionObserver(player);
    player.OnTimeControlStatusChanged(TimeControlStatus.Playing);
    observer.OnLostConnection();
    assert observer.restorePlaying;
    player.OnTransportStatusChanged(Failed);
    observer.OnRestoreConnection();
    assert player.commands == [PlayCommand];
    observer.OnRestoreConnection();
    assert player.commands == [PlayCommand];
    player.OnTimeControlStatusChanged(Paused);
    observer.OnLostConnection();
    observer.OnRestoreConnection();
    assert player.commands == [PlayCommand];
  }
}
