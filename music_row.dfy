/**
 * One row of the library list: its duration line and the indicator that
 * marks the track the player holds.
 */
module MusicRow {
  import opened Wrappers
  import opened Tracks
  import Clock
  import Library
  import Paths

  /** The duration line under the artist: shown only for a positive duration. */
  function DurationLine(duration: real): (r: Option<string>)
    ensures r.Some? <==> duration > 0.0
    ensures r.Some? ==> Clock.Parse(r.value) == Some(duration.Floor)
  {
    if duration > 0.0 then Some(Clock.FormatSeconds(duration)) else None
  }

  /** The icon at the end of a row. */
  datatype Indicator = NoIndicator | Speaker | PauseIcon

  /**
   * The row of the current track shows a speaker while playing and a pause
   * icon otherwise; every other row, and every row when nothing is current,
   * shows none.
   */
  function PlayingIndicator(row: AudioTrack, current: Option<AudioTrack>, isPlaying: bool): (r: Indicator)
    ensures r == Speaker <==> current.Some? && current.value.id == row.id && isPlaying
    ensures r == PauseIcon <==> current.Some? && current.value.id == row.id && !isPlaying
    ensures r == NoIndicator <==> current.None? || current.value.id != row.id
  {
    if current.Some? && current.value.id == row.id then
      if isPlaying then Speaker else PauseIcon
    else
      NoIndicator
  }

  /** In a list whose tracks have distinct identities, at most one row is marked. */
  lemma AtMostOneMarkedRow(rows: seq<AudioTrack>, current: Option<AudioTrack>, isPlaying: bool, i: nat, j: nat)
    requires forall a, b :: 0 <= a < b < |rows| ==> rows[a].id != rows[b].id
    requires i < |rows| && j < |rows|
    ensures (PlayingIndicator(rows[i], current, isPlaying) != NoIndicator
             && PlayingIndicator(rows[j], current, isPlaying) != NoIndicator) ==> i == j
  {
    if i < j {
      assert rows[i].id != rows[j].id;
    } else if j < i {
      assert rows[j].id != rows[i].id;
    }
  }

  /** A library loaded from the store marks at most one of its rows. */
  lemma LoadedLibraryMarksOneRow(recs: seq<Library.Record>, documents: Paths.Url, files: set<Paths.Url>,
                                 firstId: TrackId, current: Option<AudioTrack>, isPlaying: bool, i: nat, j: nat)
    requires i < |Library.DecodeAll(recs, documents, files, firstId)|
    requires j < |Library.DecodeAll(recs, documents, files, firstId)|
    ensures var rows := Library.DecodeAll(recs, documents, files, firstId);
      (PlayingIndicator(rows[i], current, isPlaying) != NoIndicator
       && PlayingIndicator(rows[j], current, isPlaying) != NoIndicator) ==> i == j
  {
    AtMostOneMarkedRow(Library.DecodeAll(recs, documents, files, firstId), current, isPlaying, i, j);
  }
}
