/**
 * The playback engine (Player.swift): a public status projected from two transport
 * observers, a track title fed by stream metadata, and play/pause forwarded to the
 * transport. The transport itself is abstract: its notifications are method
 * parameters and the commands sent to it are recorded in a ghost log.
 */
module Playback {
  import opened Wrappers
  import opened TrackTitles

  /** `Player.Status`, the status the rest of the app sees. */
  datatype Status = Starting | ReadyToPlay | Error | PreparingToPlay | Playing

  /** `AVPlayer.Status`, read by the readiness observer. */
  datatype TransportStatus = Unknown | ReadyToPlay | Failed

  /** `AVPlayer.TimeControlStatus`, read by the timing observer. */
  datatype TimeControlStatus = Paused | WaitingToPlayAtSpecifiedRate | Playing

  /** A notification from either observer channel. */
  datatype ObserverEvent =
    | TransportStatusChanged(transportStatus: TransportStatus)
    | TimeControlStatusChanged(timeControlStatus: TimeControlStatus)

  /** The commands `play()` and `pause()` forward to the transport. */
  datatype TransportCommand = PlayCommand | PauseCommand

  /** The readiness observer's mapping. */
  function StatusForTransport(t: TransportStatus): (s: Status)
    ensures s == Starting <==> t == Unknown
    ensures s == Error <==> t == Failed
    ensures s == Status.ReadyToPlay <==> t == TransportStatus.ReadyToPlay
  {
    match t
    case Unknown => Starting
    case Failed => Error
    case ReadyToPlay => Status.ReadyToPlay
  }

  /** The timing observer's mapping. */
  function StatusForTimeControl(t: TimeControlStatus): (s: Status)
    ensures s == PreparingToPlay <==> t == WaitingToPlayAtSpecifiedRate
    ensures s == Status.ReadyToPlay <==> t == Paused
    ensures s == Status.Playing <==> t == TimeControlStatus.Playing
  {
    match t
    case WaitingToPlayAtSpecifiedRate => PreparingToPlay
    case Paused => Status.ReadyToPlay
    case Playing => Status.Playing
  }

  /** The status an observer writes for an event, whatever the status was before. */
  function StatusAfter(e: ObserverEvent): Status
  {
    match e
    case TransportStatusChanged(t) => StatusForTransport(t)
    case TimeControlStatusChanged(t) => StatusForTimeControl(t)
  }

  /** The status after the observers have handled `events` in order, starting from `s`. */
  function Replay(s: Status, events: seq<ObserverEvent>): Status
    decreases |events|
  {
    if events == [] then s else Replay(StatusAfter(events[0]), events[1..])
  }

  /** Last write wins: after a non-empty run of events only the last one matters. */
  lemma {:induction false} ReplayLastWriteWins(s: Status, events: seq<ObserverEvent>)
    requires events != []
    ensures Replay(s, events) == StatusAfter(events[|events| - 1])
    decreases |events|
  {
    if |events| > 1 {
      ReplayLastWriteWins(StatusAfter(events[0]), events[1..]);
    }
  }

  /** Each channel writes its own statuses: only timing yields PreparingToPlay or Playing, only readiness Starting or Error. */
  lemma ChannelImages(t: TransportStatus, c: TimeControlStatus)
    ensures StatusForTransport(t) !in {PreparingToPlay, Status.Playing}
    ensures StatusForTimeControl(c) !in {Starting, Error}
    ensures StatusForTransport(t) == StatusForTimeControl(c) <==>
              t == TransportStatus.ReadyToPlay && c == Paused
  {
  }

  /**
   * One item of a timed metadata group: `identifier` and `stringValue` may be missing.
   * `OtherIdentifier` stands for every identifier other than the ICY stream title.
   */
  datatype MetadataIdentifier = IcyMetadataStreamTitle | OtherIdentifier
  datatype MetadataItem = MetadataItem(identifier: Option<MetadataIdentifier>, stringValue: Option<string>)
  datatype MetadataGroup = MetadataGroup(items: seq<MetadataItem>)

  /** The stream title an item carries, when the metadata callback accepts it. */
  function AcceptedTitle(item: MetadataItem): (r: Option<string>)
    ensures r.Some? <==>
              item.identifier == Some(IcyMetadataStreamTitle) && item.stringValue.Some? && |item.stringValue.value| > 0
    ensures r.Some? ==> r.value == item.stringValue.value
  {
    match item.identifier
    case None => None
    case Some(id) =>
      match item.stringValue
      case None => None
      case Some(value) =>
        match id
        case IcyMetadataStreamTitle => if |value| > 0 then Some(value) else None
        case OtherIdentifier => None
  }

  /** The track title after one item has been handled. */
  function ApplyItem(t: TrackTitle, item: MetadataItem): TrackTitle
  {
    match AcceptedTitle(item)
    case Some(value) => MakeFrom(value)
    case None => t
  }

  /** The track title after `items` have been handled in order, starting from `t`. */
  function ApplyItems(t: TrackTitle, items: seq<MetadataItem>): TrackTitle
  {
    if items == [] then t else ApplyItem(ApplyItems(t, items[..|items| - 1]), items[|items| - 1])
  }

  /** The items of all groups, group by group. */
  function Flatten(groups: seq<MetadataGroup>): seq<MetadataItem>
  {
    if groups == [] then [] else Flatten(groups[..|groups| - 1]) + groups[|groups| - 1].items
  }

  /** Reference definition: the value of the last accepted item, if any. */
  function LastAcceptedTitle(items: seq<MetadataItem>): (r: Option<string>)
    ensures r.None? <==> forall k :: 0 <= k < |items| ==> AcceptedTitle(items[k]).None?
    ensures r.Some? ==> exists k :: 0 <= k < |items| && AcceptedTitle(items[k]) == r &&
                          forall j :: k < j < |items| ==> AcceptedTitle(items[j]).None?
  {
    if items == [] then None
    else
      var last := items[|items| - 1];
      var front := items[..|items| - 1];
      match AcceptedTitle(last)
      case Some(value) => Some(value)
      case None =>
        var r := LastAcceptedTitle(front);
        assert forall k :: 0 <= k < |front| ==> front[k] == items[k];
        r
  }

  /** The title after a batch comes from the last accepted item; without one it is unchanged. */
  lemma {:induction false} ApplyItemsTakesLast(t: TrackTitle, items: seq<MetadataItem>)
    ensures ApplyItems(t, items) == match LastAcceptedTitle(items)
                                    case Some(value) => MakeFrom(value)
                                    case None => t
    decreases |items|
  {
    if items != [] {
      ApplyItemsTakesLast(t, items[..|items| - 1]);
    }
  }

  /** Delivering the same batch twice leaves the title as delivering it once. */
  lemma ApplyItemsTwice(t: TrackTitle, items: seq<MetadataItem>)
    ensures ApplyItems(ApplyItems(t, items), items) == ApplyItems(t, items)
  {
  }

  /** Handling one more item after a run of items is handling the longer run. */
  lemma ApplyItemsSnoc(t: TrackTitle, items: seq<MetadataItem>, item: MetadataItem)
    ensures ApplyItems(t, items + [item]) == ApplyItem(ApplyItems(t, items), item)
  {
    assert (items + [item])[..|items|] == items;
  }

  /** Handling two runs one after the other is handling their concatenation. */
  lemma {:induction false} ApplyItemsAppend(t: TrackTitle, xs: seq<MetadataItem>, ys: seq<MetadataItem>)
    ensures ApplyItems(t, xs + ys) == ApplyItems(ApplyItems(t, xs), ys)
    decreases |ys|
  {
    if ys == [] {
      assert xs + ys == xs;
    } else {
      var front, last := ys[..|ys| - 1], ys[|ys| - 1];
      assert ys == front + [last];
      assert xs + ys == (xs + front) + [last];
      ApplyItemsAppend(t, xs, front);
      ApplyItemsSnoc(t, xs + front, last);
      ApplyItemsSnoc(ApplyItems(t, xs), front, last);
    }
  }

  /** The items of one more group follow the items of the groups before it. */
  lemma FlattenSnoc(groups: seq<MetadataGroup>, g: nat)
    requires g < |groups|
    ensures Flatten(groups[..g + 1]) == Flatten(groups[..g]) + groups[g].items
  {
    assert groups[..g + 1][..g] == groups[..g];
  }

  class Player {
    var status: Status
    var trackTitle: TrackTitle
    /** Whether `start()` got past the audio-session setup: the transport exists and its observers are attached. */
    var started: bool
    /** The commands sent to the transport, oldest first. */
    ghost var commands: seq<TransportCommand>

    /** Only an attached observer moves the status away from Starting. */
    ghost predicate Valid()
      reads this
    {
      status != Starting ==> started
    }

    /** `init(url:)`: the stream URL is opaque here. */
    constructor ()
      ensures Valid()
      ensures status == Starting && trackTitle == MakeEmpty()
      ensures !started && commands == []
    {
      status := Starting;
      trackTitle := MakeEmpty();
      started := false;
      commands := [];
    }

    /**
     * `start()`: `sessionReady` says whether setting the audio-session category
     * succeeded. On failure the error is only logged; either way the status does not change.
     */
    method Start(sessionReady: bool)
      requires Valid()
      modifies this`started
      ensures Valid()
      ensures started == (old(started) || sessionReady)
    {
      if sessionReady {
        started := true;
      }
    }

    /** The readiness observer: the transport's status changed to `t`. */
    method OnTransportStatusChanged(t: TransportStatus)
      requires Valid()
      modifies this`status
      ensures Valid()
      ensures status == if started then StatusAfter(TransportStatusChanged(t)) else old(status)
    {
      if started {
        match t {
          case Unknown => status := Starting;
          case Failed => status := Error;
          case ReadyToPlay => status := Status.ReadyToPlay;
        }
      }
    }

    /** The timing observer: the transport's time-control status changed to `t`. */
    method OnTimeControlStatusChanged(t: TimeControlStatus)
      requires Valid()
      modifies this`status
      ensures Valid()
      ensures status == if started then StatusAfter(TimeControlStatusChanged(t)) else old(status)
    {
      if started {
        match t {
          case WaitingToPlayAtSpecifiedRate => status := PreparingToPlay;
          case Paused => status := Status.ReadyToPlay;
          case Playing => status := Status.Playing;
        }
      }
    }

    /** `play()`: forwards one command; the force-unwrapped transport must exist. */
    method Play()
      requires started
      modifies this`commands
      ensures commands == old(commands) + [PlayCommand]
    {
      commands := commands + [PlayCommand];
    }

    /** `pause()`: forwards one command; the force-unwrapped transport must exist. */
    method Pause()
      requires started
      modifies this`commands
      ensures commands == old(commands) + [PauseCommand]
    {
      commands := commands + [PauseCommand];
    }

    /** One item of a metadata group: a non-empty stream title replaces the track title. */
    method HandleItem(item: MetadataItem)
      modifies this`trackTitle
      ensures trackTitle == ApplyItem(old(trackTitle), item)
    {
      if item.identifier.Some? && item.stringValue.Some? {
        var id, value := item.identifier.value, item.stringValue.value;
        if id == IcyMetadataStreamTitle && |value| > 0 {
          trackTitle := MakeFrom(value);
        }
      }
    }

    /** The items of one group, in order. */
    method HandleGroup(items: seq<MetadataItem>)
      modifies this`trackTitle
      ensures trackTitle == ApplyItems(old(trackTitle), items)
    {
      var i := 0;
      while i < |items|
        invariant 0 <= i <= |items|
        invariant trackTitle == ApplyItems(old(trackTitle), items[..i])
      {
        HandleItem(items[i]);
        ApplyItemsSnoc(old(trackTitle), items[..i], items[i]);
        assert items[..i + 1] == items[..i] + [items[i]];
        i := i + 1;
      }
      assert items[..i] == items;
    }

    /**
     * The metadata delegate: groups, then their items, in order. Only an accepted
     * item replaces the title; the delegate is registered only by a successful start.
     */
    method OnTimedMetadata(groups: seq<MetadataGroup>)
      modifies this`trackTitle
      ensures trackTitle == if started then ApplyItems(old(trackTitle), Flatten(groups)) else old(trackTitle)
    {
      if !started {
        return;
      }
      var g := 0;
      while g < |groups|
        invariant 0 <= g <= |groups|
        invariant trackTitle == ApplyItems(old(trackTitle), Flatten(groups[..g]))
      {
        HandleGroup(groups[g].items);
        ApplyItemsAppend(old(trackTitle), Flatten(groups[..g]), groups[g].items);
        FlattenSnoc(groups, g);
        g := g + 1;
      }
      assert groups[..g] == groups;
    }
  }

  /**
   * A client of the observer contracts: events delivered one by one through the
   * two observer methods leave the status that `Replay` computes for the run.
   */
  method ObserverRunScenario()
  {
    var player := new Player();
    player.Start(true);
    var events := [TransportStatusChanged(TransportStatus.ReadyToPlay),
                   TimeControlStatusChanged(WaitingToPlayAtSpecifiedRate),
                   TimeControlStatusChanged(TimeControlStatus.Playing),
                   TransportStatusChanged(Failed)];
    player.OnTransportStatusChanged(TransportStatus.ReadyToPlay);
    ReplayLastWriteWins(Starting, events[..1]);
    assert player.status == Replay(Starting, events[..1]);
    player.OnTimeControlStatusChanged(WaitingToPlayAtSpecifiedRate);
    ReplayLastWriteWins(Starting, events[..2]);
    assert player.status == Replay(Starting, events[..2]);
    player.OnTimeControlStatusChanged(TimeControlStatus.Playing);
    ReplayLastWriteWins(Starting, events[..3]);
    assert player.status == Replay(Starting, events[..3]);
    player.OnTransportStatusChanged(Failed);
    ReplayLastWriteWins(Starting, events);
    assert player.status == Replay(Starting, events) == Error;
  }
}
