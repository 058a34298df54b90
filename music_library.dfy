/**
 * The imported-music library: the list of tracks, its record in the
 * key-value store under a format version, and the audio files it owns in
 * the documents directory.
 */
module Library {
  import opened Wrappers
  import opened Numeric
  import opened Paths
  import opened Tracks
  import opened Positions

  /** Property-list values as the key-value store holds them. */
  datatype Plist =
    | PNumber(number: real)
    | PString(text: string)
    | PArray(items: seq<Plist>)
    | PDict(entries: map<string, Plist>)

  /** The key-value store (`UserDefaults`). */
  type Store = map<string, Plist>

  /** One saved track: a dictionary from field names to values. */
  type Record = map<string, Plist>

  const TracksKey := "SavedTracks"
  const VersionKey := "SavedTracksVersion"
  const CurrentVersion := 2

  /** `integer(forKey:)`: a stored number, truncated; 0 for anything else. */
  function IntegerFor(store: Store, key: string): (n: int)
    ensures !(key in store && store[key].PNumber?) ==> n == 0
    ensures key in store && store[key].PNumber? && store[key].number >= 0.0 ==>
      0 <= n && n as real <= store[key].number < n as real + 1.0
    ensures key in store && store[key].PNumber? && store[key].number < 0.0 ==>
      n <= 0 && store[key].number <= n as real < store[key].number + 1.0
  {
    if key in store && store[key].PNumber? then Trunc(store[key].number) else 0
  }

  /**
   * The store after `checkDataVersion`: a version below the current one
   * erases the saved tracks and records the current version; otherwise the
   * store is untouched.
   */
  function Migrated(store: Store): (r: Store)
    ensures IntegerFor(r, VersionKey) == CurrentVersion || r == store
    ensures IntegerFor(r, VersionKey) >= CurrentVersion
    ensures IntegerFor(store, VersionKey) >= CurrentVersion ==> r == store
    ensures IntegerFor(store, VersionKey) < CurrentVersion ==>
      && TracksKey !in r
      && r.Keys == store.Keys - {TracksKey} + {VersionKey}
      && forall k :: k in store && k != TracksKey && k != VersionKey ==> r[k] == store[k]
  {
    if IntegerFor(store, VersionKey) < CurrentVersion then
      (store - {TracksKey})[VersionKey := PNumber(CurrentVersion as real)]
    else
      store
  }

  /** Checking the version twice is checking it once. */
  lemma MigratedIdempotent(store: Store)
    ensures Migrated(Migrated(store)) == Migrated(store)
  {
  }

  // ---------------------------------------------------------------------
  // Saving: every track becomes a dictionary (artwork is not modelled).
  // ---------------------------------------------------------------------

  /** The `urlPath` saved for a track: its file name, or "" without a file. */
  function UrlPath(t: AudioTrack): (name: string)
    ensures '/' !in name
    ensures t.url.None? ==> name == ""
    ensures t.url.Some? ==> |name| <= |t.url.value| && t.url.value[|t.url.value| - |name|..] == name
  {
    if t.url.Some? then LastPathComponent(t.url.value) else ""
  }

  /** The dictionary `saveTracks` builds for one track; its fields read back as the track's. */
  function EncodeTrack(t: AudioTrack): (rec: Record)
    ensures rec.Keys == {"title", "artist", "urlPath", "duration"}
    ensures StringField(rec, "title") == Some(t.title) && StringField(rec, "artist") == Some(t.artist)
    ensures StringField(rec, "urlPath") == Some(UrlPath(t))
    ensures NumberField(rec, "duration") == t.duration
  {
    map["title" := PString(t.title),
        "artist" := PString(t.artist),
        "urlPath" := PString(UrlPath(t)),
        "duration" := PNumber(t.duration)]
  }

  /** The array `saveTracks` stores under `TracksKey`. */
  function Saved(ts: seq<AudioTrack>): (v: Plist)
    ensures v.PArray? && |v.items| == |ts|
    ensures forall i :: 0 <= i < |ts| ==> v.items[i] == PDict(EncodeTrack(ts[i]))
  {
    PArray(seq(|ts|, i requires 0 <= i < |ts| => PDict(EncodeTrack(ts[i]))))
  }

  // ---------------------------------------------------------------------
  // Loading: the stored array read back as records, then `compactMap`.
  // ---------------------------------------------------------------------

  /** `array(forKey:) as? [[String: Any]]`: an array of dictionaries, or nothing. */
  function AsRecords(v: Plist): (r: Option<seq<Record>>)
    ensures r.Some? <==> v.PArray? && forall i :: 0 <= i < |v.items| ==> v.items[i].PDict?
    ensures r.Some? ==>
      && |r.value| == |v.items|
      && forall i :: 0 <= i < |v.items| ==> v.items[i] == PDict(r.value[i])
  {
    if v.PArray? && forall i :: 0 <= i < |v.items| ==> v.items[i].PDict? then
      Some(seq(|v.items|, i requires 0 <= i < |v.items| => v.items[i].entries))
    else
      None
  }

  /** `data[key] as? String`. */
  function StringField(rec: Record, key: string): (r: Option<string>)
    ensures r.Some? <==> key in rec && rec[key].PString?
    ensures r.Some? ==> rec[key] == PString(r.value)
  {
    if key in rec && rec[key].PString? then Some(rec[key].text) else None
  }

  /** `data[key] as? TimeInterval ?? 0`. */
  function NumberField(rec: Record, key: string): (x: real)
    ensures key in rec && rec[key].PNumber? ==> rec[key] == PNumber(x)
    ensures !(key in rec && rec[key].PNumber?) ==> x == 0.0
  {
    if key in rec && rec[key].PNumber? then rec[key].number else 0.0
  }

  /**
   * One step of the `compactMap` in `loadSavedTracks`: a record with string
   * `title`, `artist` and `urlPath` whose file exists in the documents
   * directory becomes a track with the fresh identity `id`; any other record
   * is dropped. A missing or non-numeric `duration` reads as 0.
   */
  function DecodeRecord(rec: Record, documents: Url, files: set<Url>, id: TrackId): (r: Option<AudioTrack>)
    ensures r.Some? <==>
      && StringField(rec, "title").Some?
      && StringField(rec, "artist").Some?
      && StringField(rec, "urlPath").Some?
      && AppendPathComponent(documents, StringField(rec, "urlPath").value) in files
    ensures r.Some? ==> r.value == AudioTrack(
      id,
      StringField(rec, "title").value,
      StringField(rec, "artist").value,
      Some(AppendPathComponent(documents, StringField(rec, "urlPath").value)),
      NumberField(rec, "duration"))
  {
    var title := StringField(rec, "title");
    var artist := StringField(rec, "artist");
    var urlPath := StringField(rec, "urlPath");
    if title.None? || artist.None? || urlPath.None? then None
    else
      var fileUrl := AppendPathComponent(documents, urlPath.value);
      if fileUrl !in files then None
      else Some(AudioTrack(id, title.value, artist.value, Some(fileUrl), NumberField(rec, "duration")))
  }

  /**
   * The tracks `loadSavedTracks` builds from `recs`, in saved order; record
   * `k` gets the identity `firstId + k`. Every track it yields has a file
   * that exists.
   */
  function DecodeAll(recs: seq<Record>, documents: Url, files: set<Url>, firstId: TrackId): (r: seq<AudioTrack>)
    ensures |r| <= |recs|
    ensures forall t :: t in r ==> t.url.Some? && t.url.value in files
    ensures forall t :: t in r ==> firstId <= t.id < firstId + |recs|
    ensures forall i, j :: 0 <= i < j < |r| ==> r[i].id < r[j].id
  {
    if recs == [] then []
    else
      var rest := DecodeAll(recs[1..], documents, files, firstId + 1);
      match DecodeRecord(recs[0], documents, files, firstId)
      case Some(t) => [t] + rest
      case None => rest
  }

  /** Every record that decodes is kept: record `k` loads as its own decode. */
  lemma {:induction false} DecodeAllKeeps(recs: seq<Record>, documents: Url, files: set<Url>, firstId: TrackId, k: nat)
    requires k < |recs|
    requires DecodeRecord(recs[k], documents, files, firstId + k).Some?
    ensures DecodeRecord(recs[k], documents, files, firstId + k).value in DecodeAll(recs, documents, files, firstId)
  {
    if k > 0 {
      assert recs[1..][k - 1] == recs[k];
      DecodeAllKeeps(recs[1..], documents, files, firstId + 1, k - 1);
    }
  }

  /** Every loaded track is the decode of the saved record its identity names. */
  lemma {:induction false} DecodeAllSound(recs: seq<Record>, documents: Url, files: set<Url>, firstId: TrackId, t: AudioTrack)
    requires t in DecodeAll(recs, documents, files, firstId)
    ensures firstId <= t.id < firstId + |recs|
    ensures DecodeRecord(recs[t.id - firstId], documents, files, t.id) == Some(t)
    decreases |recs|
  {
    var rest := DecodeAll(recs[1..], documents, files, firstId + 1);
    match DecodeRecord(recs[0], documents, files, firstId)
    case Some(u) =>
      if t != u {
        DecodeAllSound(recs[1..], documents, files, firstId + 1, t);
        assert recs[1..][t.id - (firstId + 1)] == recs[t.id - firstId];
      }
    case None =>
      DecodeAllSound(recs[1..], documents, files, firstId + 1, t);
      assert recs[1..][t.id - (firstId + 1)] == recs[t.id - firstId];
  }

  /** Where a saved track's file is looked up on loading. */
  function SavedPath(documents: Url, t: AudioTrack): Url
  {
    AppendPathComponent(documents, UrlPath(t))
  }

  /** The track a saved `t` is reloaded as, under the fresh identity `id`. */
  function Reloaded(documents: Url, t: AudioTrack, id: TrackId): AudioTrack
  {
    AudioTrack(id, t.title, t.artist, Some(SavedPath(documents, t)), t.duration)
  }

  /** The records `saveTracks` builds, one per track. */
  function EncodeAll(ts: seq<AudioTrack>): (recs: seq<Record>)
    ensures |recs| == |ts|
    ensures forall i :: 0 <= i < |ts| ==> recs[i] == EncodeTrack(ts[i])
  {
    seq(|ts|, i requires 0 <= i < |ts| => EncodeTrack(ts[i]))
  }

  /** A saved track with its file present decodes to its reloaded form. */
  lemma DecodeEncodedTrack(documents: Url, files: set<Url>, t: AudioTrack, id: TrackId)
    requires SavedPath(documents, t) in files
    ensures DecodeRecord(EncodeTrack(t), documents, files, id) == Some(Reloaded(documents, t, id))
  {
    var rec := EncodeTrack(t);
    assert StringField(rec, "title") == Some(t.title);
    assert StringField(rec, "artist") == Some(t.artist);
    assert StringField(rec, "urlPath") == Some(UrlPath(t));
    assert NumberField(rec, "duration") == t.duration;
  }

  lemma {:induction false} DecodeEncoded(ts: seq<AudioTrack>, documents: Url, files: set<Url>, firstId: TrackId)
    requires forall i :: 0 <= i < |ts| ==> SavedPath(documents, ts[i]) in files
    ensures |DecodeAll(EncodeAll(ts), documents, files, firstId)| == |ts|
    ensures forall i :: 0 <= i < |ts| ==>
      DecodeAll(EncodeAll(ts), documents, files, firstId)[i] == Reloaded(documents, ts[i], firstId + i)
  {
    if ts != [] {
      var recs := EncodeAll(ts);
      var tail := EncodeAll(ts[1..]);
      assert recs[1..] == tail;
      DecodeEncoded(ts[1..], documents, files, firstId + 1);
      DecodeEncodedTrack(documents, files, ts[0], firstId);
      assert recs[0] == EncodeTrack(ts[0]);
      var rest := DecodeAll(tail, documents, files, firstId + 1);
      assert DecodeAll(recs, documents, files, firstId) == [Reloaded(documents, ts[0], firstId)] + rest;
      assert forall i :: 0 <= i < |ts| - 1 ==> ts[1..][i] == ts[i + 1];
      ConsReloaded(documents, ts, firstId, rest);
    }
  }

  lemma ConsReloaded(documents: Url, ts: seq<AudioTrack>, firstId: TrackId, rest: seq<AudioTrack>)
    requires ts != [] && |rest| == |ts| - 1
    requires forall i :: 0 <= i < |ts| - 1 ==> rest[i] == Reloaded(documents, ts[i + 1], firstId + 1 + i)
    ensures var r := [Reloaded(documents, ts[0], firstId)] + rest;
      |r| == |ts| && forall i :: 0 <= i < |ts| ==> r[i] == Reloaded(documents, ts[i], firstId + i)
  {
    var r := [Reloaded(documents, ts[0], firstId)] + rest;
    forall i | 0 < i < |ts| ensures r[i] == Reloaded(documents, ts[i], firstId + i) {
      assert r[i] == rest[i - 1];
    }
  }

  /**
   * Saving and loading again gives back every track whose file is still in
   * the documents directory, in order, with the same title, artist and
   * duration, re-pointed at the documents directory under a fresh identity.
   */
  lemma LoadAfterSave(ts: seq<AudioTrack>, documents: Url, files: set<Url>, firstId: TrackId)
    requires forall i :: 0 <= i < |ts| ==> SavedPath(documents, ts[i]) in files
    ensures AsRecords(Saved(ts)).Some?
    ensures var r := DecodeAll(AsRecords(Saved(ts)).value, documents, files, firstId);
      && |r| == |ts|
      && forall i :: 0 <= i < |ts| ==> r[i] == Reloaded(documents, ts[i], firstId + i)
  {
    assert AsRecords(Saved(ts)).value == EncodeAll(ts);
    DecodeEncoded(ts, documents, files, firstId);
  }

  /**
   * A reload followed by a save writes back what was saved, when every track
   * had a file with a non-empty name and all those files are still present.
   */
  lemma SaveAfterLoad(ts: seq<AudioTrack>, documents: Url, files: set<Url>, firstId: TrackId)
    requires forall i :: 0 <= i < |ts| ==> ts[i].url.Some? && LastPathComponent(ts[i].url.value) != []
    requires forall i :: 0 <= i < |ts| ==> SavedPath(documents, ts[i]) in files
    ensures Saved(DecodeAll(AsRecords(Saved(ts)).value, documents, files, firstId)) == Saved(ts)
  {
    LoadAfterSave(ts, documents, files, firstId);
    var r := DecodeAll(AsRecords(Saved(ts)).value, documents, files, firstId);
    forall i | 0 <= i < |ts| ensures EncodeTrack(r[i]) == EncodeTrack(ts[i]) {
      LastOfAppended(documents, LastPathComponent(ts[i].url.value));
    }
    assert Saved(r).items == Saved(ts).items;
  }

  /** The tracks `loadSavedTracks` leaves, starting from `current`. */
  function LoadedFrom(store: Store, documents: Url, files: set<Url>, firstId: TrackId,
                      current: seq<AudioTrack>): seq<AudioTrack>
  {
    if TracksKey in store && AsRecords(store[TracksKey]).Some? then
      DecodeAll(AsRecords(store[TracksKey]).value, documents, files, firstId)
    else
      current
  }

  /** A store written before version 2 starts the library empty. */
  lemma OldFormatStartsEmpty(store: Store, documents: Url, files: set<Url>, firstId: TrackId)
    requires IntegerFor(store, VersionKey) < CurrentVersion
    ensures LoadedFrom(Migrated(store), documents, files, firstId, []) == []
  {
  }

  /** A current-format store written by `saveTracks` restarts the library it saved. */
  lemma RestartAfterSave(store: Store, ts: seq<AudioTrack>, documents: Url, files: set<Url>, firstId: TrackId)
    requires IntegerFor(store, VersionKey) >= CurrentVersion
    requires TracksKey in store && store[TracksKey] == Saved(ts)
    requires forall i :: 0 <= i < |ts| ==> SavedPath(documents, ts[i]) in files
    ensures var r := LoadedFrom(Migrated(store), documents, files, firstId, []);
      && |r| == |ts|
      && forall i :: 0 <= i < |ts| ==> r[i] == Reloaded(documents, ts[i], firstId + i)
  {
    LoadAfterSave(ts, documents, files, firstId);
  }

  /** `tracks.firstIndex(where: { $0.id == id })`. */
  function FirstIndexOfId(ts: seq<AudioTrack>, id: TrackId): (r: Option<nat>)
    ensures r.Some? ==> r.value < |ts| && ts[r.value].id == id
    ensures r.Some? ==> forall j :: 0 <= j < r.value ==> ts[j].id != id
    ensures r.None? ==> forall j :: 0 <= j < |ts| ==> ts[j].id != id
  {
    if ts == [] then None
    else if ts[0].id == id then Some(0)
    else
      match FirstIndexOfId(ts[1..], id)
      case None => None
      case Some(k) => Some(k + 1)
  }

  /** The files deleted with the tracks at `positions` of `ts`. */
  function FilesAt(ts: seq<AudioTrack>, positions: set<nat>): set<Url>
  {
    set j | j in positions && j < |ts| && ts[j].url.Some? :: ts[j].url.value
  }

  /** The files of a single track. */
  function FileOf(t: AudioTrack): set<Url>
  {
    if t.url.Some? then {t.url.value} else {}
  }

  /**
   * One step of deleting in descending order: with every position already
   * deleted above `index`, deleting at `index` in the shortened list removes
   * position `index` of the original and its file, and an index past the end
   * removes nothing.
   */
  lemma DeleteStep(original: seq<AudioTrack>, done: set<nat>, index: nat)
    requires forall d :: d in done ==> d > index
    ensures index < |original| <==> index < |Without(original, done)|
    ensures index < |original| ==>
      && RemoveAt(Without(original, done), index) == Without(original, done + {index})
      && FilesAt(original, done + {index}) == FilesAt(original, done) + FileOf(Without(original, done)[index])
    ensures index >= |original| ==>
      && Without(original, done + {index}) == Without(original, done)
      && FilesAt(original, done + {index}) == FilesAt(original, done)
  {
    if index < |original| {
      RemoveBelowRemoved(original, done, index);
      assert FilesAt(original, done + {index}) == FilesAt(original, done) + FileOf(original[index]);
    } else {
      OutOfRangeIgnored(original, done, index);
      assert FilesAt(original, done + {index}) == FilesAt(original, done);
    }
  }

  /**
   * Taking the largest remaining index over to the deleted ones keeps the
   * two a partition of the index set with every remaining index below every
   * deleted one.
   */
  lemma PartitionStep(indexSet: set<nat>, remaining: set<nat>, done: set<nat>, index: nat)
    requires remaining + done == indexSet && remaining !! done
    requires forall r, d :: r in remaining && d in done ==> r < d
    requires index in remaining && forall x :: x in remaining ==> x <= index
    ensures (remaining - {index}) + (done + {index}) == indexSet
    ensures (remaining - {index}) !! (done + {index})
    ensures forall r, d :: r in remaining - {index} && d in done + {index} ==> r < d
    ensures forall d :: d in done ==> d > index
  {
  }

  /** A store that differs from `before` only under `TracksKey`, and holds it, is `before` with that key set. */
  lemma OnlyTracksKeyChanged(before: Store, after: Store)
    requires after - {TracksKey} == before - {TracksKey}
    requires TracksKey in after
    ensures after == before[TracksKey := after[TracksKey]]
  {
    forall k | k != TracksKey ensures (k in after <==> k in before) && (k in after ==> after[k] == before[k]) {
      assert k in after <==> k in after - {TracksKey};
      assert k in before <==> k in before - {TracksKey};
      if k in after {
        assert after[k] == (after - {TracksKey})[k];
        assert before[k] == (before - {TracksKey})[k];
      }
    }
  }

  class MusicLibrary {
    var tracks: seq<AudioTrack>
    /** The key-value store; process-wide in the source. */
    var defaults: Store
    /** The files present in the documents directory; process-wide in the source. */
    var files: set<Url>
    /** The documents directory. */
    const documents: Url

    /** The store holds exactly the current list under `TracksKey`. */
    ghost predicate Persisted()
      reads this
    {
      TracksKey in defaults && defaults[TracksKey] == Saved(tracks)
    }

    /**
     * Startup: check the stored format version, then load the saved tracks,
     * giving them the identities `firstId`, `firstId + 1`, ...
     */
    constructor (defaults: Store, files: set<Url>, documents: Url, firstId: TrackId)
      ensures this.defaults == Migrated(defaults)
      ensures this.files == files && this.documents == documents
      ensures tracks == LoadedFrom(Migrated(defaults), documents, files, firstId, [])
    {
      this.tracks := [];
      this.defaults := defaults;
      this.files := files;
      this.documents := documents;
      new;
      CheckDataVersion();
      LoadSavedTracks(firstId);
    }

    method CheckDataVersion()
      modifies this
      ensures defaults == Migrated(old(defaults))
      ensures tracks == old(tracks) && files == old(files)
    {
      var savedVersion := IntegerFor(defaults, VersionKey);
      if savedVersion < CurrentVersion {
        defaults := defaults - {TracksKey};
        defaults := defaults[VersionKey := PNumber(CurrentVersion as real)];
      }
    }

    method SaveTracks()
      modifies this
      ensures Persisted()
      ensures defaults == old(defaults)[TracksKey := Saved(tracks)]
      ensures tracks == old(tracks) && files == old(files)
    {
      defaults := defaults[TracksKey := Saved(tracks)];
    }

    method LoadSavedTracks(firstId: TrackId)
      modifies this
      ensures tracks == LoadedFrom(defaults, documents, files, firstId, old(tracks))
      ensures defaults == old(defaults) && files == old(files)
    {
      if TracksKey !in defaults {
        return;
      }
      var trackData := AsRecords(defaults[TracksKey]);
      if trackData.None? {
        return;
      }
      tracks := DecodeAll(trackData.value, documents, files, firstId);
    }

    /** Appends the new tracks after the existing ones and saves the list. */
    method AddTracks(newTracks: seq<AudioTrack>)
      modifies this
      ensures tracks == old(tracks) + newTracks
      ensures Persisted() && files == old(files)
      ensures defaults == old(defaults)[TracksKey := Saved(tracks)]
    {
      tracks := tracks + newTracks;
      SaveTracks();
    }

    /**
     * Deletes the track at `index` together with its file and saves the
     * list; an index outside the list changes nothing.
     */
    method DeleteTrackAt(index: int)
      modifies this
      ensures 0 <= index < |old(tracks)| ==>
        && tracks == RemoveAt(old(tracks), index)
        && files == old(files) - FileOf(old(tracks)[index])
        && Persisted()
        && defaults == old(defaults)[TracksKey := Saved(tracks)]
      ensures !(0 <= index < |old(tracks)|) ==>
        tracks == old(tracks) && files == old(files) && defaults == old(defaults)
      ensures defaults - {TracksKey} == old(defaults) - {TracksKey}
    {
      if !(0 <= index < |tracks|) {
        return;
      }
      var trackToDelete := tracks[index];
      if trackToDelete.url.Some? {
        files := files - {trackToDelete.url.value};
      }
      tracks := tracks[..index] + tracks[index + 1..];
      SaveTracks();
    }

    /** Deletes the first track with `track`'s identity; none there, nothing happens. */
    method DeleteTrack(track: AudioTrack)
      modifies this
      ensures FirstIndexOfId(old(tracks), track.id).None? ==>
        tracks == old(tracks) && files == old(files) && defaults == old(defaults)
      ensures FirstIndexOfId(old(tracks), track.id).Some? ==>
        var k := FirstIndexOfId(old(tracks), track.id).value;
        && tracks == RemoveAt(old(tracks), k)
        && files == old(files) - FileOf(old(tracks)[k])
        && Persisted()
        && defaults == old(defaults)[TracksKey := Saved(tracks)]
    {
      var index := FirstIndexOfId(tracks, track.id);
      if index.Some? {
        DeleteTrackAt(index.value);
      }
    }

    /**
     * Deletes the tracks at the positions in `indexSet`, highest position
     * first so that the lower positions still name the same tracks. The
     * result is the old list without exactly those positions; positions past
     * the end are ignored. The list is saved when anything was deleted.
     */
    method DeleteTracks(indexSet: set<nat>)
      modifies this
      ensures tracks == Without(old(tracks), indexSet)
      ensures files == old(files) - FilesAt(old(tracks), indexSet)
      ensures (exists i :: i in indexSet && i < |old(tracks)|) ==>
        Persisted() && defaults == old(defaults)[TracksKey := Saved(tracks)]
      ensures (forall i :: i in indexSet ==> i >= |old(tracks)|) ==> defaults == old(defaults)
    {
      var remaining := indexSet;
      ghost var done: set<nat> := {};
      ghost var original := tracks;
      ghost var originalFiles := files;
      ghost var changed := false;
      ghost var deleted: nat := 0;
      NothingRemoved(original);
      assert FilesAt(original, {}) == {};
      while remaining != {}
        invariant remaining + done == indexSet && remaining !! done
        invariant forall r, d :: r in remaining && d in done ==> r < d
        invariant tracks == Without(original, done)
        invariant files == originalFiles - FilesAt(original, done)
        invariant defaults - {TracksKey} == old(defaults) - {TracksKey}
        invariant changed ==> Persisted() && deleted in done && deleted < |original|
        invariant !changed ==> defaults == old(defaults)
        invariant !changed ==> forall i :: i in done ==> i >= |original|
        decreases remaining
      {
        ghost var top := MaxOf(remaining);
        var index :| index in remaining && forall x :: x in remaining ==> x <= index;
        PartitionStep(indexSet, remaining, done, index);
        DeleteStep(original, done, index);
        DeleteTrackAt(index);
        if index < |original| {
          changed, deleted := true, index;
        }
        remaining := remaining - {index};
        done := done + {index};
      }
      if changed {
        OnlyTracksKeyChanged(old(defaults), defaults);
      }
    }
  }
}
