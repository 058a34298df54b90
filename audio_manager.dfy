/**
 * The playback session: a playlist with a cursor, the track that is loaded
 * into the player, and the play/pause, time, duration and volume state the
 * views observe.
 */
module Audio {
  import opened Wrappers
  import opened Paths
  import opened Tracks

  /**
   * The player object the manager holds: the file it was opened on, whether
   * it is producing sound, and the volume it was given.
   */
  datatype Player = Player(url: Url, running: bool, volume: real)

  /** The player after `player?.play()`: an absent player stays absent. */
  function Started(p: Option<Player>): (r: Option<Player>)
    ensures r.Some? <==> p.Some?
    ensures r.Some? ==> r.value == p.value.(running := true)
  {
    match p
    case None => None
    case Some(q) => Some(q.(running := true))
  }

  /** The player after `player?.pause()` (or after it stopped by itself). */
  function Stopped(p: Option<Player>): (r: Option<Player>)
    ensures r.Some? <==> p.Some?
    ensures r.Some? ==> r.value == p.value.(running := false)
  {
    match p
    case None => None
    case Some(q) => Some(q.(running := false))
  }

  /** The cursor after `nextTrack` on a playlist of `n` tracks. */
  function NextIndex(i: int, n: nat): (j: int)
    requires 0 <= i && n > 0
    ensures 0 <= j < n
    ensures i < n - 1 ==> j == i + 1
    ensures i == n - 1 ==> j == 0
  {
    (i + 1) % n
  }

  /** The cursor after `previousTrack`; the source indexes the playlist with it. */
  function PreviousIndex(i: int, n: nat): (j: int)
    requires 0 <= i <= n && n > 0
    ensures 0 <= j < n
    ensures i > 0 ==> j == i - 1
    ensures i == 0 ==> j == n - 1
  {
    if i > 0 then i - 1 else n - 1
  }

  /** `previousTrack` undoes `nextTrack` and the other way round. */
  lemma NextPreviousInverse(i: int, n: nat)
    requires 0 <= i < n
    ensures PreviousIndex(NextIndex(i, n), n) == i
    ensures NextIndex(PreviousIndex(i, n), n) == i
  {
    if i < n - 1 {
      assert NextIndex(i, n) == i + 1;
    } else {
      assert NextIndex(i, n) == 0;
    }
    if i > 0 {
      assert PreviousIndex(i, n) == i - 1;
    } else {
      assert PreviousIndex(i, n) == n - 1;
    }
  }

  /** The cursor after `k` calls of `nextTrack`. */
  function Advance(i: int, n: nat, k: nat): (j: int)
    requires 0 <= i && n > 0
    ensures 0 <= j < n || (k == 0 && j == i)
  {
    if k == 0 then i else NextIndex(Advance(i, n, k - 1), n)
  }

  /** Below the end of the playlist, `k` steps forward just add `k`. */
  lemma {:induction false} AdvanceWithin(i: int, n: nat, k: nat)
    requires 0 <= i && i + k < n
    ensures Advance(i, n, k) == i + k
  {
    if k > 0 {
      AdvanceWithin(i, n, k - 1);
    }
  }

  /** `a + b` steps forward are `a` steps followed by `b` steps. */
  lemma {:induction false} AdvanceSplit(i: int, n: nat, a: nat, b: nat)
    requires 0 <= i && n > 0
    ensures Advance(i, n, a + b) == Advance(Advance(i, n, a), n, b)
  {
    if b > 0 {
      AdvanceSplit(i, n, a, b - 1);
      assert a + b - 1 == a + (b - 1);
    }
  }

  /** `n` calls of `nextTrack` on a playlist of `n` tracks come back to the start. */
  lemma {:induction false} FullCycle(i: int, n: nat)
    requires 0 <= i < n
    ensures Advance(i, n, n) == i
  {
    AdvanceWithin(i, n, n - 1 - i);
    assert Advance(i, n, n - i) == 0;
    AdvanceSplit(i, n, n - i, i);
    AdvanceWithin(0, n, i);
  }

  class AudioManager {
    var isPlaying: bool
    var currentTime: real
    var duration: real
    var currentTrackIndex: int
    var currentTrack: Option<AudioTrack>
    var playlist: seq<AudioTrack>
    var volume: real
    var player: Option<Player>

    /**
     * What opening a player on a file yields: `Some(d)` with the player's
     * duration `d`, or `None` when creating the player throws.
     */
    const media: Url -> Option<real>

    /** `loadTrack` succeeds on `t`: it has a file and a player opens on it. */
    predicate Loadable(t: AudioTrack)
    {
      t.url.Some? && media(t.url.value).Some?
    }

    /** The duration the player reports for a loadable track. */
    function PlayerDuration(t: AudioTrack): real
      requires Loadable(t)
    {
      media(t.url.value).value
    }

    /**
     * The object invariant: the cursor is never negative, a player exists
     * exactly when a track is current and was opened on that track's file at
     * the current volume, and a running player means the session is playing.
     */
    ghost predicate Valid()
      reads this
    {
      && 0 <= currentTrackIndex
      && (currentTrack.Some? <==> player.Some?)
      && (player.Some? ==> currentTrack.value.url == Some(player.value.url))
      && (player.Some? ==> player.value.volume == volume)
      && (player.Some? && player.value.running ==> isPlaying)
    }

    /**
     * The playlist invariant: on a non-empty playlist the cursor points into
     * it, and a current track implies a non-empty playlist.
     */
    ghost predicate CursorInRange()
      reads this
    {
      && (playlist != [] ==> currentTrackIndex < |playlist|)
      && (currentTrack.Some? ==> playlist != [])
    }

    constructor (media: Url -> Option<real>)
      ensures Valid() && CursorInRange()
      ensures this.media == media
      ensures !isPlaying && currentTime == 0.0 && duration == 0.0
      ensures currentTrackIndex == 0 && currentTrack == None && playlist == []
      ensures volume == 0.5 && player == None
    {
      this.media := media;
      isPlaying := false;
      currentTime := 0.0;
      duration := 0.0;
      currentTrackIndex := 0;
      currentTrack := None;
      playlist := [];
      volume := 0.5;
      player := None;
    }

    /**
     * Opens a player on `track` and makes it current; a track without a file,
     * or one the player cannot open, leaves everything as it was.
     */
    method LoadTrack(track: AudioTrack)
      requires Valid()
      modifies this
      ensures Valid()
      ensures Loadable(track) ==>
        && currentTrack == Some(track)
        && player == Some(Player(track.url.value, false, volume))
        && duration == PlayerDuration(track)
        && currentTime == 0.0
      ensures !Loadable(track) ==>
        && currentTrack == old(currentTrack) && player == old(player)
        && duration == old(duration) && currentTime == old(currentTime)
      ensures isPlaying == old(isPlaying) && volume == old(volume)
      ensures playlist == old(playlist) && currentTrackIndex == old(currentTrackIndex)
    {
      if track.url.None? {
        return;
      }
      var outcome := media(track.url.value);
      if outcome.None? {
        return;
      }
      player := Some(Player(track.url.value, false, volume));
      currentTrack := Some(track);
      duration := outcome.value;
      currentTime := 0.0;
    }

    method Play()
      requires Valid()
      modifies this
      ensures Valid()
      ensures isPlaying && player == Started(old(player))
      ensures currentTrack == old(currentTrack) && currentTime == old(currentTime)
      ensures duration == old(duration) && volume == old(volume)
      ensures playlist == old(playlist) && currentTrackIndex == old(currentTrackIndex)
    {
      player := Started(player);
      isPlaying := true;
    }

    method Pause()
      requires Valid()
      modifies this
      ensures Valid()
      ensures !isPlaying && player == Stopped(old(player))
      ensures currentTrack == old(currentTrack) && currentTime == old(currentTime)
      ensures duration == old(duration) && volume == old(volume)
      ensures playlist == old(playlist) && currentTrackIndex == old(currentTrackIndex)
    {
      player := Stopped(player);
      isPlaying := false;
    }

    method TogglePlayPause()
      requires Valid()
      modifies this
      ensures Valid()
      ensures isPlaying == !old(isPlaying)
      ensures player == if isPlaying then Started(old(player)) else Stopped(old(player))
      ensures currentTrack == old(currentTrack) && currentTime == old(currentTime)
      ensures duration == old(duration) && volume == old(volume)
      ensures playlist == old(playlist) && currentTrackIndex == old(currentTrackIndex)
    {
      if isPlaying {
        Pause();
      } else {
        Play();
      }
    }

    /** Moves the playback position; the player's own position is not modelled. */
    method Seek(time: real)
      modifies this
      ensures currentTime == time
      ensures isPlaying == old(isPlaying) && player == old(player)
      ensures currentTrack == old(currentTrack) && duration == old(duration)
      ensures volume == old(volume)
      ensures playlist == old(playlist) && currentTrackIndex == old(currentTrackIndex)
    {
      currentTime := time;
    }

    /**
     * Moves the cursor one forward, wrapping to the first track, loads the
     * track under it and keeps playing if the session was playing. An empty
     * playlist changes nothing.
     */
    method NextTrack()
      requires Valid()
      modifies this
      ensures Valid()
      ensures old(CursorInRange()) ==> CursorInRange()
      ensures playlist == old(playlist) && volume == old(volume) && isPlaying == old(isPlaying)
      ensures playlist == [] ==>
        && currentTrackIndex == old(currentTrackIndex) && currentTrack == old(currentTrack)
        && player == old(player) && currentTime == old(currentTime) && duration == old(duration)
      ensures playlist != [] ==>
        && currentTrackIndex == NextIndex(old(currentTrackIndex), |playlist|)
        && SwitchedTo(playlist[currentTrackIndex], old(currentTrack), old(player), old(currentTime), old(duration))
    {
      if playlist == [] {
        return;
      }
      currentTrackIndex := NextIndex(currentTrackIndex, |playlist|);
      LoadTrack(playlist[currentTrackIndex]);
      if isPlaying {
        Play();
      }
    }

    /**
     * Moves the cursor one back, wrapping from the first to the last track;
     * otherwise as `NextTrack`. The source indexes the playlist with the new
     * cursor, which traps when the cursor was beyond the playlist's end.
     */
    method PreviousTrack()
      requires Valid()
      requires playlist == [] || currentTrackIndex <= |playlist|
      modifies this
      ensures Valid()
      ensures old(CursorInRange()) ==> CursorInRange()
      ensures playlist == old(playlist) && volume == old(volume) && isPlaying == old(isPlaying)
      ensures playlist == [] ==>
        && currentTrackIndex == old(currentTrackIndex) && currentTrack == old(currentTrack)
        && player == old(player) && currentTime == old(currentTime) && duration == old(duration)
      ensures playlist != [] ==>
        && currentTrackIndex == PreviousIndex(old(currentTrackIndex), |playlist|)
        && SwitchedTo(playlist[currentTrackIndex], old(currentTrack), old(player), old(currentTime), old(duration))
    {
      if playlist == [] {
        return;
      }
      currentTrackIndex := PreviousIndex(currentTrackIndex, |playlist|);
      LoadTrack(playlist[currentTrackIndex]);
      if isPlaying {
        Play();
      }
    }

    /**
     * The state `nextTrack` and `previousTrack` leave after loading `t` and
     * resuming when playing: a loadable `t` becomes current at time 0 with a
     * fresh player that runs exactly when the session plays; otherwise the old
     * track, time and duration stay and the old player is resumed if playing.
     */
    ghost predicate SwitchedTo(t: AudioTrack, track0: Option<AudioTrack>, player0: Option<Player>,
                               time0: real, duration0: real)
      reads this
    {
      if Loadable(t) then
        && currentTrack == Some(t) && currentTime == 0.0 && duration == PlayerDuration(t)
        && player == Some(Player(t.url.value, isPlaying, volume))
      else
        && currentTrack == track0 && currentTime == time0 && duration == duration0
        && player == (if isPlaying then Started(player0) else player0)
    }

    method SetVolume(newVolume: real)
      requires Valid()
      modifies this
      ensures Valid()
      ensures volume == newVolume
      ensures player.Some? <==> old(player).Some?
      ensures player.Some? ==> player.value == old(player).value.(volume := newVolume)
      ensures isPlaying == old(isPlaying) && currentTrack == old(currentTrack)
      ensures currentTime == old(currentTime) && duration == old(duration)
      ensures playlist == old(playlist) && currentTrackIndex == old(currentTrackIndex)
    {
      volume := newVolume;
      if player.Some? {
        player := Some(player.value.(volume := newVolume));
      }
    }

    /**
     * Appends `tracks`; when no track is current and the playlist is now
     * non-empty, the cursor goes to the first track and that track is loaded.
     */
    method AddToPlaylist(tracks: seq<AudioTrack>)
      requires Valid()
      modifies this
      ensures Valid()
      ensures old(CursorInRange()) ==> CursorInRange()
      ensures playlist == old(playlist) + tracks
      ensures isPlaying == old(isPlaying) && volume == old(volume)
      ensures old(currentTrack).Some? || playlist == [] ==>
        && currentTrackIndex == old(currentTrackIndex) && currentTrack == old(currentTrack)
        && player == old(player) && currentTime == old(currentTime) && duration == old(duration)
      ensures old(currentTrack).None? && playlist != [] ==>
        && currentTrackIndex == 0
        && (Loadable(playlist[0]) ==>
              && currentTrack == Some(playlist[0]) && currentTime == 0.0
              && duration == PlayerDuration(playlist[0])
              && player == Some(Player(playlist[0].url.value, false, volume)))
        && (!Loadable(playlist[0]) ==>
              && currentTrack == None && player == None
              && currentTime == old(currentTime) && duration == old(duration))
    {
      playlist := playlist + tracks;
      if currentTrack.None? && playlist != [] {
        currentTrackIndex := 0;
        LoadTrack(playlist[0]);
      }
    }

    /**
     * Replaces the playlist. A start index inside a non-empty list moves the
     * cursor there and loads that track; an empty list clears the session; a
     * start index beyond a non-empty list changes nothing else. A negative
     * start index on a non-empty list traps in the source.
     */
    method SetPlaylist(tracks: seq<AudioTrack>, startIndex: int)
      requires Valid()
      requires tracks != [] ==> 0 <= startIndex
      modifies this
      ensures Valid()
      ensures playlist == tracks && volume == old(volume)
      ensures CursorInRange() <==> tracks == [] || startIndex < |tracks| || old(currentTrackIndex) < |tracks|
      ensures tracks != [] && startIndex < |tracks| ==>
        && currentTrackIndex == startIndex && isPlaying == old(isPlaying)
        && (Loadable(tracks[startIndex]) ==>
              currentTrack == Some(tracks[startIndex]) && currentTime == 0.0
              && duration == PlayerDuration(tracks[startIndex])
              && player == Some(Player(tracks[startIndex].url.value, false, volume)))
        && (!Loadable(tracks[startIndex]) ==>
              currentTrack == old(currentTrack) && player == old(player)
              && currentTime == old(currentTime) && duration == old(duration))
      ensures tracks == [] ==>
        && currentTrack == None && player == None && !isPlaying
        && currentTime == 0.0 && duration == 0.0 && currentTrackIndex == old(currentTrackIndex)
      ensures tracks != [] && startIndex >= |tracks| ==>
        && currentTrackIndex == old(currentTrackIndex) && currentTrack == old(currentTrack)
        && player == old(player) && isPlaying == old(isPlaying)
        && currentTime == old(currentTime) && duration == old(duration)
    {
      playlist := tracks;
      if playlist != [] && startIndex < |playlist| {
        currentTrackIndex := startIndex;
        LoadTrack(playlist[startIndex]);
      } else if playlist == [] {
        ClearCurrentTrack();
      }
    }

    /** Stops and drops the player and resets the session; the playlist stays. */
    method ClearCurrentTrack()
      requires Valid()
      modifies this
      ensures Valid()
      ensures currentTrack == None && player == None && !isPlaying
      ensures currentTime == 0.0 && duration == 0.0
      ensures playlist == old(playlist) && currentTrackIndex == old(currentTrackIndex)
      ensures volume == old(volume)
      ensures old(CursorInRange()) ==> CursorInRange()
    {
      player := None;
      currentTrack := None;
      currentTime := 0.0;
      duration := 0.0;
      isPlaying := false;
    }

    /**
     * The player's end-of-file callback: the player has stopped; when it
     * finished successfully the session moves on to the next track.
     */
    method AudioPlayerDidFinishPlaying(successfully: bool)
      requires Valid()
      modifies this
      ensures Valid()
      ensures old(CursorInRange()) ==> CursorInRange()
      ensures playlist == old(playlist) && isPlaying == old(isPlaying) && volume == old(volume)
      ensures !successfully || playlist == [] ==>
        && currentTrackIndex == old(currentTrackIndex) && currentTrack == old(currentTrack)
        && player == Stopped(old(player)) && currentTime == old(currentTime) && duration == old(duration)
      ensures successfully && playlist != [] ==>
        && currentTrackIndex == NextIndex(old(currentTrackIndex), |playlist|)
        && SwitchedTo(playlist[currentTrackIndex], old(currentTrack), Stopped(old(player)),
                      old(currentTime), old(duration))
    {
      player := Stopped(player);
      if successfully {
        NextTrack();
      }
    }
  }
}
