/**
 * The player extension that remembers how far each episode was watched.
 *
 * Whenever playback pauses or finishes, the user switches data source or
 * episode, or the player closes, the extension reads the player and either
 * saves the current position for the episode, removes the episode's saved
 * position (playback is at or near the end), or leaves the store alone (the
 * readings are not usable). When the player becomes ready it seeks to the
 * saved position.
 *
 * The player is not modelled as an object: each handler receives a snapshot
 * of what it would read from the player, including a position reading that
 * threw an Error.
 */
module RememberPlayProgress {

  import opened Wrappers

  const LONG_MIN: int := -0x8000_0000_0000_0000
  const LONG_MAX: int := 0x7fff_ffff_ffff_ffff

  /** Kotlin's Long. */
  type Long = x: int | LONG_MIN <= x <= LONG_MAX

  /** The saved position is removed rather than updated when fewer milliseconds than this remain. */
  const NEAR_END_MILLIS: int := 5000

  /** The player's states, as the exhaustive `when` of savePlayProgressOrRemove lists them. */
  datatype PlaybackState = Ready | Paused | Playing | PausedBuffering | Finished | Error

  /** The result of asking the player for its position: a value, or a thrown Error. */
  datatype PositionReading = Position(millis: Long) | ThrewError

  /** What a handler reads from the player: its state, the video's duration and the position. */
  datatype PlayerSnapshot = PlayerSnapshot(state: PlaybackState, durationMillis: Option<Long>, position: PositionReading)

  /** The position used by the handler: a thrown Error counts as position 0. */
  function CurrentPositionMillis(reading: PositionReading): (millis: Long)
    ensures reading.ThrewError? ==> millis == 0
    ensures reading.Position? ==> millis == reading.millis
  {
    match reading
    case Position(millis) => millis
    case ThrewError => 0
  }

  // ---------------------------------------------------------------------------
  // The save-or-remove decision, as a function of the readings
  // ---------------------------------------------------------------------------

  /** What savePlayProgressOrRemove does to the entry of its episode. */
  datatype Decision = Keep | RemoveEntry | SaveEntry(positionMillis: Long)

  /** The states in which the position is worth acting on. */
  predicate IsSavingState(state: PlaybackState)
  {
    state == Finished || state == Paused || state == Playing || state == PausedBuffering
  }

  /** Whether playback is at the end or within NEAR_END_MILLIS of it. */
  predicate NearEnd(durationMillis: int, positionMillis: int)
  {
    durationMillis - positionMillis < NEAR_END_MILLIS || positionMillis > durationMillis
  }

  function Decide(player: PlayerSnapshot): (d: Decision)
    ensures d.SaveEntry? ==> 0 < d.positionMillis
  {
    if player.durationMillis.None? || player.durationMillis.value <= 0 then Keep
    else if !IsSavingState(player.state) then Keep
    else
      var position := CurrentPositionMillis(player.position);
      if position <= 0 then Keep
      else if NearEnd(player.durationMillis.value, position) then RemoveEntry
      else SaveEntry(position)
  }

  /** The store after a decision about one episode. */
  function Apply(positions: map<int, Long>, episodeId: int, d: Decision): (r: map<int, Long>)
    ensures d.Keep? ==> r == positions
    ensures d.RemoveEntry? ==> episodeId !in r
    ensures d.SaveEntry? ==> episodeId in r && r[episodeId] == d.positionMillis
    ensures forall e :: e != episodeId ==> (e in r <==> e in positions)
    ensures forall e :: e != episodeId && e in r ==> r[e] == positions[e]
  {
    match d
    case Keep => positions
    case RemoveEntry => positions - {episodeId}
    case SaveEntry(millis) => positions[episodeId := millis]
  }

  /** A duration the handler can use: known and positive. */
  predicate KnownDuration(player: PlayerSnapshot)
  {
    player.durationMillis.Some? && player.durationMillis.value > 0
  }

  lemma UnknownDurationKeeps(player: PlayerSnapshot)
    requires !KnownDuration(player)
    ensures Decide(player) == Keep
  {
  }

  lemma ReadyOrErrorKeeps(player: PlayerSnapshot)
    requires player.state == Ready || player.state == Error
    ensures Decide(player) == Keep
  {
  }

  lemma NonPositivePositionKeeps(player: PlayerSnapshot)
    requires CurrentPositionMillis(player.position) <= 0
    ensures Decide(player) == Keep
  {
  }

  /** A position reading that threw an Error never changes the store, whatever the other readings. */
  lemma ThrownErrorKeeps(player: PlayerSnapshot)
    requires player.position.ThrewError?
    ensures Decide(player) == Keep
  {
  }

  /** The decision is to remove or save exactly for a usable duration, a saving state and a positive position. */
  lemma ChangeNeedsUsableReadings(player: PlayerSnapshot)
    ensures Decide(player) != Keep <==>
      KnownDuration(player) && IsSavingState(player.state) && CurrentPositionMillis(player.position) > 0
  {
  }

  /**
   * The store can only change when the readings are usable. The converse fails:
   * removing an absent entry or saving the position already stored leaves it equal.
   */
  lemma StoreChangeNeedsUsableReadings(positions: map<int, Long>, episodeId: int, player: PlayerSnapshot)
    ensures Apply(positions, episodeId, Decide(player)) != positions ==>
      KnownDuration(player) && IsSavingState(player.state) && CurrentPositionMillis(player.position) > 0
  {
  }

  /** With usable readings, the entry is removed exactly when playback is near or past the end. */
  lemma NearEndRemoves(player: PlayerSnapshot)
    requires KnownDuration(player) && IsSavingState(player.state) && CurrentPositionMillis(player.position) > 0
    ensures Decide(player) == RemoveEntry <==>
      player.durationMillis.value - CurrentPositionMillis(player.position) < NEAR_END_MILLIS
    ensures Decide(player) == RemoveEntry || Decide(player) == SaveEntry(CurrentPositionMillis(player.position))
  {
  }

  /** Exactly when a position is saved, and which one. */
  lemma SaveExactly(player: PlayerSnapshot, millis: Long)
    ensures Decide(player) == SaveEntry(millis) <==>
      KnownDuration(player) && IsSavingState(player.state)
      && millis == CurrentPositionMillis(player.position)
      && 0 < millis && player.durationMillis.value - millis >= NEAR_END_MILLIS
  {
  }

  /** Every saved position lies inside the video and at least NEAR_END_MILLIS before its end. */
  lemma SavedPositionBounds(player: PlayerSnapshot)
    requires Decide(player).SaveEntry?
    ensures KnownDuration(player)
    ensures 0 < Decide(player).positionMillis <= player.durationMillis.value - NEAR_END_MILLIS
  {
  }

  /** The second test of NearEnd adds nothing to the first: past the end is also near it. */
  lemma PastEndIsNearEnd(durationMillis: int, positionMillis: int)
    requires positionMillis > durationMillis
    ensures durationMillis - positionMillis < NEAR_END_MILLIS
  {
  }

  /** Applying the same decision twice changes nothing more. */
  lemma ApplyIdempotent(positions: map<int, Long>, episodeId: int, d: Decision)
    ensures Apply(Apply(positions, episodeId, d), episodeId, d) == Apply(positions, episodeId, d)
  {
  }

  /** Every stored position is positive. */
  predicate PositivePositions(positions: map<int, Long>)
  {
    forall e :: e in positions ==> positions[e] > 0
  }

  lemma DecisionKeepsPositivePositions(positions: map<int, Long>, episodeId: int, player: PlayerSnapshot)
    requires PositivePositions(positions)
    ensures PositivePositions(Apply(positions, episodeId, Decide(player)))
  {
  }

  // ---------------------------------------------------------------------------
  // The play-history repository
  // ---------------------------------------------------------------------------

  /** The store of saved positions, keyed by episode id. */
  class PlayHistoryRepository {
    var positions: map<int, Long>

    constructor()
      ensures positions == map[]
    {
      positions := map[];
    }

    method Remove(episodeId: int)
      modifies this
      ensures positions == old(positions) - {episodeId}
    {
      positions := positions - {episodeId};
    }

    method SaveOrUpdate(episodeId: int, positionMillis: Long)
      modifies this
      ensures positions == old(positions)[episodeId := positionMillis]
    {
      positions := positions[episodeId := positionMillis];
    }

    method GetPositionMillisByEpisodeId(episodeId: int) returns (r: Option<Long>)
      ensures r.Some? <==> episodeId in positions
      ensures r.Some? ==> r.value == positions[episodeId]
    {
      if episodeId in positions {
        r := Some(positions[episodeId]);
      } else {
        r := None;
      }
    }
  }

  /** The saved position of an episode, if any. */
  function Lookup(positions: map<int, Long>, episodeId: int): Option<Long>
  {
    if episodeId in positions then Some(positions[episodeId]) else None
  }

  // ---------------------------------------------------------------------------
  // Reacting to playback states
  // ---------------------------------------------------------------------------

  /** One emission of the player's state flow, with what the handler then reads from the player. */
  datatype StateEvent = StateEvent(state: PlaybackState, player: PlayerSnapshot)

  /** The store and the seek requested after one emission. */
  datatype Reaction = Reaction(positions: map<int, Long>, seekTo: Option<Long>)

  function React(positions: map<int, Long>, episodeId: int, event: StateEvent): (r: Reaction)
    ensures event.state == Ready ==> r.positions == positions && r.seekTo == Lookup(positions, episodeId)
    ensures (event.state == Paused || event.state == Finished) ==>
      r.positions == Apply(positions, episodeId, Decide(event.player)) && r.seekTo.None?
    ensures !(event.state in {Ready, Paused, Finished}) ==> r == Reaction(positions, None)
  {
    match event.state
    case Ready => Reaction(positions, Lookup(positions, episodeId))
    case Paused => Reaction(Apply(positions, episodeId, Decide(event.player)), None)
    case Finished => Reaction(Apply(positions, episodeId, Decide(event.player)), None)
    case _ => Reaction(positions, None)
  }

  /** The store and the seeks after a whole sequence of emissions. */
  function Replay(positions: map<int, Long>, episodeId: int, events: seq<StateEvent>): Reaction
  {
    if events == [] then Reaction(positions, None)
    else React(Replay(positions, episodeId, events[..|events| - 1]).positions, episodeId, events[|events| - 1])
  }

  /** Every seek requested while collecting a sequence of emissions, in order. */
  function Seeks(positions: map<int, Long>, episodeId: int, events: seq<StateEvent>): seq<Long>
  {
    if events == [] then []
    else
      var before := Replay(positions, episodeId, events[..|events| - 1]).positions;
      var seek := React(before, episodeId, events[|events| - 1]).seekTo;
      Seeks(positions, episodeId, events[..|events| - 1]) + (if seek.Some? then [seek.value] else [])
  }

  /** However the player's state changes, only this episode's entry is ever touched. */
  lemma {:induction false} ReplayTouchesOnlyItsEpisode(positions: map<int, Long>, episodeId: int, events: seq<StateEvent>)
    ensures forall e :: e != episodeId ==> (e in Replay(positions, episodeId, events).positions <==> e in positions)
    ensures forall e :: e != episodeId && e in positions ==> Replay(positions, episodeId, events).positions[e] == positions[e]
  {
    if events != [] {
      ReplayTouchesOnlyItsEpisode(positions, episodeId, events[..|events| - 1]);
    }
  }

  /** Stored positions stay positive, so a seek is always to a positive position. */
  lemma {:induction false} ReplayKeepsPositivePositions(positions: map<int, Long>, episodeId: int, events: seq<StateEvent>)
    requires PositivePositions(positions)
    ensures PositivePositions(Replay(positions, episodeId, events).positions)
    ensures forall k :: 0 <= k < |Seeks(positions, episodeId, events)| ==> Seeks(positions, episodeId, events)[k] > 0
  {
    if events != [] {
      var init := events[..|events| - 1];
      ReplayKeepsPositivePositions(positions, episodeId, init);
      DecisionKeepsPositivePositions(Replay(positions, episodeId, init).positions, episodeId, events[|events| - 1].player);
    }
  }

  /** A pause that saves a position, then a READY state: the player seeks back to it. */
  lemma PauseThenResume(positions: map<int, Long>, episodeId: int, paused: PlayerSnapshot, ready: PlayerSnapshot)
    requires Decide(paused).SaveEntry?
    ensures Seeks(positions, episodeId, [StateEvent(Paused, paused), StateEvent(Ready, ready)])
              == [Decide(paused).positionMillis]
  {
    var events := [StateEvent(Paused, paused), StateEvent(Ready, ready)];
    var saved := Apply(positions, episodeId, Decide(paused));
    assert events[..1] == [StateEvent(Paused, paused)];
    assert events[..1][..0] == [];
    assert Replay(positions, episodeId, events[..1]).positions == saved;
    assert Seeks(positions, episodeId, events[..1]) == [];
    assert React(saved, episodeId, events[1]).seekTo == Some(Decide(paused).positionMillis);
  }

  // ---------------------------------------------------------------------------
  // The extension
  // ---------------------------------------------------------------------------

  class RememberPlayProgressExtension {
    const repository: PlayHistoryRepository

    constructor(repository: PlayHistoryRepository)
      ensures this.repository == repository
    {
      this.repository := repository;
    }

    /**
     * Saves the position of the episode, removes its entry near the end of the
     * video, or does nothing when the readings are not usable.
     */
    method SavePlayProgressOrRemove(episodeId: int, player: PlayerSnapshot)
      modifies repository
      ensures repository.positions == Apply(old(repository.positions), episodeId, Decide(player))
    {
      var playbackState := player.state;
      var videoDurationMillis := player.durationMillis;
      if videoDurationMillis.None? || videoDurationMillis.value <= 0 {
        return;
      }
      match playbackState
      case Ready | Error =>
        return;
      case Finished | Paused | Playing | PausedBuffering =>
        var currentPositionMillis: Long;
        match player.position {
          case Position(millis) =>
            currentPositionMillis := millis;
          case ThrewError =>
            currentPositionMillis := 0;
        }
        if currentPositionMillis <= 0 {
          return;
        }
        // Both readings are positive Longs here, so the subtraction cannot overflow.
        var remainingMillis: Long := videoDurationMillis.value - currentPositionMillis;
        if remainingMillis < NEAR_END_MILLIS || currentPositionMillis > videoDurationMillis.value {
          repository.Remove(episodeId);
        } else {
          repository.SaveOrUpdate(episodeId, currentPositionMillis);
        }
        return;
    }

    /** The handler of one emission of the player's state flow. */
    method OnPlaybackStateChange(sessionEpisodeId: int, event: StateEvent) returns (seekTo: Option<Long>)
      modifies repository
      ensures Reaction(repository.positions, seekTo) == React(old(repository.positions), sessionEpisodeId, event)
    {
      match event.state
      case Ready =>
        seekTo := repository.GetPositionMillisByEpisodeId(sessionEpisodeId);
      case Paused =>
        SavePlayProgressOrRemove(sessionEpisodeId, event.player);
        seekTo := None;
      case Finished =>
        SavePlayProgressOrRemove(sessionEpisodeId, event.player);
        seekTo := None;
      case _ =>
        seekTo := None;
    }

    /** The `collect` loop over the player's state flow, for a finite run of emissions. */
    method CollectPlaybackStates(sessionEpisodeId: int, events: seq<StateEvent>) returns (seeks: seq<Long>)
      modifies repository
      ensures repository.positions == Replay(old(repository.positions), sessionEpisodeId, events).positions
      ensures seeks == Seeks(old(repository.positions), sessionEpisodeId, events)
    {
      seeks := [];
      var i := 0;
      while i < |events|
        invariant 0 <= i <= |events|
        invariant repository.positions == Replay(old(repository.positions), sessionEpisodeId, events[..i]).positions
        invariant seeks == Seeks(old(repository.positions), sessionEpisodeId, events[..i])
      {
        var seekTo := OnPlaybackStateChange(sessionEpisodeId, events[i]);
        if seekTo.Some? {
          seeks := seeks + [seekTo.value];
        }
        assert events[..i + 1][..i] == events[..i];
        i := i + 1;
      }
      assert events[..|events|] == events;
    }

    /** Before the media selector switches data source, the session's episode is saved. */
    method OnBeforeSelect(sessionEpisodeId: int, player: PlayerSnapshot)
      modifies repository
      ensures repository.positions == Apply(old(repository.positions), sessionEpisodeId, Decide(player))
    {
      SavePlayProgressOrRemove(sessionEpisodeId, player);
    }

    /** Before switching to another episode, the current one is saved; the new id plays no part. */
    method OnBeforeSwitchEpisode(newEpisodeId: int, currentEpisodeId: int, player: PlayerSnapshot)
      modifies repository
      ensures repository.positions == Apply(old(repository.positions), currentEpisodeId, Decide(player))
    {
      SavePlayProgressOrRemove(currentEpisodeId, player);
    }

    /** When the player closes, the current episode is saved. */
    method OnClose(currentEpisodeId: int, player: PlayerSnapshot)
      modifies repository
      ensures repository.positions == Apply(old(repository.positions), currentEpisodeId, Decide(player))
    {
      SavePlayProgressOrRemove(currentEpisodeId, player);
    }
  }
}
