/**
 * The projection of one `getUpdate` response onto the two state slices the
 * accessory forwards: the now-playing slice (src/DacpAccessory.js:112-123) and
 * the player-controls slice (src/DacpAccessory.js:125-131).
 */
module Updates {
  import opened Wrappers

  /**
   * The `cmst` ("current status") record of an update response: track name
   * (`cann`), album (`canl`), artist (`cana`), total time (`cast`), remaining
   * time (`cant`) and play status (`caps`).
   */
  datatype Status = Status(cann: string, canl: string, cana: string, cast: int, cant: int, caps: int)

  /** A decoded update response; only its optional `cmst` record is read. */
  datatype UpdateResponse = UpdateResponse(cmst: Option<Status>)

  datatype NowPlaying = NowPlaying(
    track: string, album: string, artist: string,
    position: int, duration: int, playerState: int)

  datatype PlayerState = PlayerState(playerState: int)

  /** Both slices derived from one status record. */
  datatype Slices = Slices(nowPlaying: NowPlaying, controls: PlayerState)

  /**
   * The now-playing slice of a status record (lines 113-120): the track
   * metadata, the total time, the position as the elapsed time (the total less
   * the remaining time `cant`) and the play status.
   */
  function NowPlayingOf(st: Status): (r: NowPlaying)
    ensures r.track == st.cann && r.album == st.canl && r.artist == st.cana
    ensures r.duration == st.cast && r.position + st.cant == st.cast
    ensures r.playerState == st.caps
  {
    NowPlaying(st.cann, st.canl, st.cana, st.cast - st.cant, st.cast, st.caps)
  }

  /** The player-controls slice of a status record (lines 126-128): only the play status. */
  function PlayerStateOf(st: Status): (r: PlayerState)
    ensures r.playerState == st.caps
  {
    PlayerState(st.caps)
  }

  /** The time still to play, as a now-playing slice implies it. */
  function Remaining(np: NowPlaying): int {
    np.duration - np.position
  }

  /**
   * The slices a response yields: none when it has no `cmst` record, otherwise
   * a now-playing slice that carries the track metadata and the times and a
   * player-controls slice that carries the same play status.
   */
  function SlicesOf(response: UpdateResponse): (r: Option<Slices>)
    ensures r.Some? <==> response.cmst.Some?
    ensures r.Some? ==>
      var st := response.cmst.value;
      var np := r.value.nowPlaying;
      np.track == st.cann && np.album == st.canl && np.artist == st.cana &&
      np.duration == st.cast && Remaining(np) == st.cant &&
      np.playerState == st.caps && r.value.controls.playerState == st.caps
  {
    match response.cmst
    case None => None
    case Some(st) => Some(Slices(NowPlayingOf(st), PlayerStateOf(st)))
  }
}
