/**
 * The home screen's handlers that keep the player's queue in step with the
 * library: seeding the queue when the screen appears, playing a tapped row,
 * and swipe-deleting rows.
 */
module Home {
  import opened Wrappers
  import opened Tracks
  import opened Positions
  import opened Audio
  import opened Library

  /** Some selected row of `tracks` holds the track that is current. */
  predicate DeletesCurrent(tracks: seq<AudioTrack>, indexSet: set<nat>, current: Option<AudioTrack>)
  {
    current.Some? && exists i :: i in indexSet && i < |tracks| && tracks[i].id == current.value.id
  }

  /** The rows of `tracks` below `k` that are selected and hold the current track. */
  predicate CurrentAmongFirst(tracks: seq<AudioTrack>, indexSet: set<nat>, current: Option<AudioTrack>, k: nat)
  {
    current.Some? && exists i :: 0 <= i < k && i < |tracks| && i in indexSet && tracks[i].id == current.value.id
  }

  /** When the screen appears, an empty queue is seeded with the whole library. */
  method OnAppear(audio: AudioManager, library: MusicLibrary)
    requires audio.Valid()
    modifies audio
    ensures audio.Valid()
    ensures old(audio.CursorInRange()) ==> audio.CursorInRange()
    ensures !(library.tracks != [] && old(audio.playlist) == []) ==> unchanged(audio)
    ensures library.tracks != [] && old(audio.playlist) == [] ==>
      && audio.playlist == library.tracks
      && audio.isPlaying == old(audio.isPlaying) && audio.volume == old(audio.volume)
      && (old(audio.currentTrack).None? ==>
            && audio.currentTrackIndex == 0
            && (audio.Loadable(library.tracks[0]) ==>
                  && audio.currentTrack == Some(library.tracks[0]) && audio.currentTime == 0.0
                  && audio.duration == audio.PlayerDuration(library.tracks[0])
                  && audio.player == Some(Player(library.tracks[0].url.value, false, audio.volume)))
            && (!audio.Loadable(library.tracks[0]) ==>
                  && audio.currentTrack == None && audio.player == None
                  && audio.currentTime == old(audio.currentTime) && audio.duration == old(audio.duration)))
      && (old(audio.currentTrack).Some? ==>
            && audio.currentTrackIndex == old(audio.currentTrackIndex)
            && audio.currentTrack == old(audio.currentTrack) && audio.player == old(audio.player)
            && audio.currentTime == old(audio.currentTime) && audio.duration == old(audio.duration))
  {
    if library.tracks != [] && audio.playlist == [] {
      audio.AddToPlaylist(library.tracks);
    }
  }

  /** Tapping row `index`: the queue becomes the library, starting at that row, and plays. */
  method OnRowTap(audio: AudioManager, library: MusicLibrary, index: nat)
    requires audio.Valid()
    requires index < |library.tracks|
    modifies audio
    ensures audio.Valid() && audio.CursorInRange()
    ensures audio.playlist == library.tracks && audio.currentTrackIndex == index
    ensures audio.isPlaying
    ensures audio.volume == old(audio.volume)
    ensures audio.Loadable(library.tracks[index]) ==>
      && audio.currentTrack == Some(library.tracks[index]) && audio.currentTime == 0.0
      && audio.duration == audio.PlayerDuration(library.tracks[index])
      && audio.player == Some(Player(library.tracks[index].url.value, true, audio.volume))
    ensures !audio.Loadable(library.tracks[index]) ==>
      && audio.currentTrack == old(audio.currentTrack) && audio.player == Started(old(audio.player))
      && audio.currentTime == old(audio.currentTime) && audio.duration == old(audio.duration)
  {
    audio.SetPlaylist(library.tracks, index);
    audio.Play();
  }

  /**
   * Swipe-delete of the rows in `indexSet`: pause if a deleted row holds the
   * current track, delete the rows from the library, then make the queue the
   * remaining library from its first track, or clear the session when
   * nothing is left.
   */
  method OnDelete(audio: AudioManager, library: MusicLibrary, indexSet: set<nat>)
    requires audio.Valid()
    requires audio.currentTrack.Some? ==> forall i :: i in indexSet ==> i < |library.tracks|
    modifies audio, library
    ensures audio.Valid() && audio.CursorInRange()
    ensures library.tracks == Without(old(library.tracks), indexSet)
    ensures library.files == old(library.files) - FilesAt(old(library.tracks), indexSet)
    ensures (exists i :: i in indexSet && i < |old(library.tracks)|) ==>
      library.Persisted() && library.defaults == old(library.defaults)[TracksKey := Saved(library.tracks)]
    ensures (forall i :: i in indexSet ==> i >= |old(library.tracks)|) ==> library.defaults == old(library.defaults)
    ensures audio.volume == old(audio.volume)
    ensures library.tracks != [] ==>
      && audio.playlist == library.tracks
      && audio.currentTrackIndex == 0
      && audio.isPlaying == (old(audio.isPlaying)
                             && !DeletesCurrent(old(library.tracks), indexSet, old(audio.currentTrack)))
      && (audio.Loadable(library.tracks[0]) ==>
            && audio.currentTrack == Some(library.tracks[0]) && audio.currentTime == 0.0
            && audio.duration == audio.PlayerDuration(library.tracks[0])
            && audio.player == Some(Player(library.tracks[0].url.value, false, audio.volume)))
      && (!audio.Loadable(library.tracks[0]) ==>
            && audio.currentTrack == old(audio.currentTrack)
            && audio.currentTime == old(audio.currentTime) && audio.duration == old(audio.duration)
            && audio.player == (if DeletesCurrent(old(library.tracks), indexSet, old(audio.currentTrack))
                                then Stopped(old(audio.player)) else old(audio.player)))
    ensures library.tracks == [] ==>
      && audio.playlist == [] && audio.currentTrack == None && audio.player == None
      && !audio.isPlaying && audio.currentTime == 0.0 && audio.duration == 0.0
      && audio.currentTrackIndex == old(audio.currentTrackIndex)
  {
    ghost var current := audio.currentTrack;
    ghost var wasPlaying := audio.isPlaying;
    for index := 0 to |library.tracks|
      invariant audio.Valid()
      invariant audio.currentTrack == current
      invariant audio.isPlaying == (wasPlaying && !CurrentAmongFirst(library.tracks, indexSet, current, index))
      invariant audio.player == (if CurrentAmongFirst(library.tracks, indexSet, current, index)
                                 then Stopped(old(audio.player)) else old(audio.player))
      invariant audio.currentTime == old(audio.currentTime) && audio.duration == old(audio.duration)
      invariant audio.volume == old(audio.volume) && audio.currentTrackIndex == old(audio.currentTrackIndex)
      invariant library.tracks == old(library.tracks) && library.files == old(library.files)
      invariant library.defaults == old(library.defaults)
    {
      if index in indexSet && audio.currentTrack.Some? && library.tracks[index].id == audio.currentTrack.value.id {
        audio.Pause();
      }
    }
    assert CurrentAmongFirst(library.tracks, indexSet, current, |library.tracks|)
        == DeletesCurrent(library.tracks, indexSet, current);

    library.DeleteTracks(indexSet);

    if library.tracks != [] {
      audio.SetPlaylist(library.tracks, 0);
    } else {
      audio.playlist := [];
      audio.ClearCurrentTrack();
    }
  }
}
