# AppleMusicBottomSheet — a verified model of the player and library core

AppleMusicBottomSheet is a SwiftUI music player. It has a mini player that
expands into a full-screen sheet, and a library of audio files the user
imports. This project models the part of it that is plain state and logic:

- **`AudioManager`** (`audio_manager.dfy`, module `Audio`) is the playback
  session. It holds a playlist with a cursor, the current track, the
  play/pause flag, the time, the duration, the volume and the player object.
  Its operations are `loadTrack`, `play`, `pause`, `togglePlayPause`, `seek`,
  `nextTrack`, `previousTrack`, `setVolume`, `addToPlaylist`, `setPlaylist`,
  `clearCurrentTrack` and the end-of-file callback.
- **`MusicLibrary`** (`music_library.dfy`, module `Library`) is the imported
  tracks. It supports append, delete by index, delete by identity and delete
  of an index set (highest index first). It also keeps a versioned copy of the
  list in the key-value store and the audio files in the documents directory.
- **Position removal** (`positions.dfy`) is the sequence reading of "delete
  exactly these rows". It holds the lemma that explains why deleting in
  descending order is correct.
- **Track import** (`track_info.dfy`) covers the title and artist defaulting
  in `extractTrackInfo` and the metadata items that override them.
- **Time labels** (`clock.dfy`) render "m:ss" with Swift's truncating `Int()`,
  `/` and `%`. A reader parses the label back to the whole seconds it shows.
- **The expanded sheet** (`expanded_sheet.dfy`) covers the seek and volume
  drag clamps, the progress bar width, the corner rounding, and the drag
  offset and dismiss rule.
- **A library row** (`music_row.dfy`) covers when the duration line shows and
  which playing indicator is drawn.
- **The home screen** (`home.dfy`) keeps the queue in step with the library
  on appear, on a row tap and on swipe-delete.

The file system and `UserDefaults` are process-wide in the app. Here they are
the `files` and `defaults` fields of `MusicLibrary`. Opening an audio player is
the abstract function `AudioManager.media`: for a file it gives the player's
duration, or `None` when creating the player throws. Track identities are
naturals. Where the app draws a fresh UUID, the model takes the identity as a
parameter (`firstId + k` for the k-th loaded record). Times, lengths and
volumes are exact reals.

Two behaviours of the source are visible in the model:

- After a swipe-delete that leaves tracks, `setPlaylist` loads the first track
  into a new, stopped player. `isPlaying` stays true unless the playing track
  was deleted, so the flag can say "playing" while no sound plays
  (`Home.OnDelete`).
- If that first track cannot be loaded, `currentTrack` keeps the old current track, which may be one just deleted.

## Model

| member | source | states |
|---|---|---|
| `Numeric.Trunc` | AppleMusicBottomSheet/View/ExpandedBottomSheet.swift:286 | `Int(x)` is the floor for non-negative `x` and rounds toward zero for negative `x` |
| `Numeric.Quot` | AppleMusicBottomSheet/View/ExpandedBottomSheet.swift:286 | Swift's `/` rounds toward zero: for a non-negative dividend the quotient is the largest multiple below it, for a negative one the smallest multiple above it |
| `Numeric.Rem` | AppleMusicBottomSheet/View/ExpandedBottomSheet.swift:286-287 | Swift's `/` and `%`: quotient times divisor plus remainder is the dividend, and the remainder lies in `[0, b)` or `(-b, 0]` by the dividend's sign |
| `Paths.LastPathComponent` | AppleMusicBottomSheet/MusicImporter.swift:75 | the saved `urlPath` has no `/` and is a suffix of the path; a path without `/` is its own last component |
| `Paths.LastOfAppended` | AppleMusicBottomSheet/MusicImporter.swift:100 | appending a non-empty, slash-free name to the documents directory and taking the last component gives the name back |
| `Paths.AppendPathComponent` | AppleMusicBottomSheet/MusicImporter.swift:100 | appending a non-empty name gives the directory, a `/` and the name; an empty name gives the directory itself |
| `Paths.FileStem` | AppleMusicBottomSheet/MusicImporter.swift:180 | the default title has no `/` and is a prefix of the file name; a name without `.` is kept whole |
| `Paths.DropExtension` | AppleMusicBottomSheet/MusicImporter.swift:180 | `deletingPathExtension()` on a name with a `.` after its first character ends the stem exactly at the last `.`, with no `.` after it; a name with no such `.` is kept whole |
| `Audio.Started` | AppleMusicBottomSheet/AudioManager.swift:84 | `player?.play()` runs a present player and leaves an absent one absent |
| `Audio.Stopped` | AppleMusicBottomSheet/AudioManager.swift:90 | `player?.pause()` stops a present player and leaves an absent one absent |
| `Audio.NextIndex` | AppleMusicBottomSheet/AudioManager.swift:110 | the next cursor stays in `[0, count)`: one step forward, or back to 0 from the last track |
| `Audio.PreviousIndex` | AppleMusicBottomSheet/AudioManager.swift:119 | the previous cursor stays in `[0, count)` and is one step back, except that it wraps from 0 to the last track |
| `Audio.NextPreviousInverse` | AppleMusicBottomSheet/AudioManager.swift:108-124 | on a cursor in range, previous undoes next and next undoes previous |
| `Audio.Advance` | AppleMusicBottomSheet/AudioManager.swift:110 | after one or more `nextTrack` steps the cursor is in range |
| `Audio.AdvanceWithin` | AppleMusicBottomSheet/AudioManager.swift:110 | below the end of the playlist, `k` steps forward add `k` |
| `Audio.AdvanceSplit` | AppleMusicBottomSheet/AudioManager.swift:108-115 | `a + b` steps forward are `a` steps followed by `b` steps |
| `Audio.FullCycle` | AppleMusicBottomSheet/AudioManager.swift:108-115 | `count` calls of `nextTrack` bring the cursor back to where it started |
| `Audio.AudioManager.constructor` | AppleMusicBottomSheet/AudioManager.swift:13-29 | a new session is stopped, at time 0, with no track, no player, an empty playlist, cursor 0 and volume 0.5, and satisfies both invariants |
| `Audio.AudioManager.LoadTrack` | AppleMusicBottomSheet/AudioManager.swift:64-81 | a loadable track becomes current with a new stopped player at the current volume, its duration and time 0; a track without a file or one that fails to open changes nothing; the invariant is kept |
| `Audio.AudioManager.Play` | AppleMusicBottomSheet/AudioManager.swift:83-87 | sets `isPlaying` and starts the player if there is one; nothing else changes |
| `Audio.AudioManager.Pause` | AppleMusicBottomSheet/AudioManager.swift:89-93 | clears `isPlaying` and stops the player if there is one; nothing else changes |
| `Audio.AudioManager.TogglePlayPause` | AppleMusicBottomSheet/AudioManager.swift:95-101 | negates `isPlaying` and starts or stops the player to match |
| `Audio.AudioManager.Seek` | AppleMusicBottomSheet/AudioManager.swift:103-106 | `currentTime` becomes exactly the requested time; nothing else changes |
| `Audio.AudioManager.NextTrack` | AppleMusicBottomSheet/AudioManager.swift:108-115 | an empty playlist changes nothing; otherwise the cursor becomes `(i+1) % count`, `isPlaying` is unchanged, and a loadable track there becomes current at time 0 with a player that runs exactly when playing; the cursor invariant is kept |
| `Audio.AudioManager.PreviousTrack` | AppleMusicBottomSheet/AudioManager.swift:117-124 | the same as `NextTrack`, with the cursor moving back and wrapping from 0 to the last track |
| `Audio.AudioManager.SetVolume` | AppleMusicBottomSheet/AudioManager.swift:126-129 | the volume and the present player's volume become the new value; nothing else changes |
| `Audio.AudioManager.AddToPlaylist` | AppleMusicBottomSheet/AudioManager.swift:131-137 | the tracks are appended in order; only when no track was current and the playlist is non-empty does the cursor go to 0 and the first track get loaded, with a new stopped player at the current volume, or, when it cannot load, still no track and no player; otherwise cursor, track, player, time and duration are untouched |
| `Audio.AudioManager.SetPlaylist` | AppleMusicBottomSheet/AudioManager.swift:139-148 | the playlist is always replaced. A start index inside a non-empty list moves the cursor there and loads that track. An empty list clears the session. An out-of-range start index leaves everything else as it was. The cursor ends in range unless the old cursor was past the end of the new list |
| `Audio.AudioManager.ClearCurrentTrack` | AppleMusicBottomSheet/AudioManager.swift:150-158 | no track, no player, time 0, duration 0 and not playing; playlist, cursor and volume stay |
| `Audio.AudioManager.AudioPlayerDidFinishPlaying` | AppleMusicBottomSheet/AudioManager.swift:192-196 | the finished player is stopped; a successful finish moves on exactly as `nextTrack`, and a failed one changes nothing else |
| `Positions.RemoveAt` | AppleMusicBottomSheet/MusicImporter.swift:49 | `remove(at:)` makes the list one shorter; elements before the index stay and later ones move down by one |
| `Positions.KeepFrom` | AppleMusicBottomSheet/MusicImporter.swift:61-68 | keeping the unselected positions from `lo` on yields no more elements than that stretch holds |
| `Positions.Without` | AppleMusicBottomSheet/MusicImporter.swift:61-68 | the list without a set of positions is no longer than the list |
| `Positions.KeepFromElements` | AppleMusicBottomSheet/MusicImporter.swift:61-68 | every element kept from `lo` on is an element of that stretch |
| `Positions.WithoutElements` | AppleMusicBottomSheet/MusicImporter.swift:61-68 | deleting positions only takes elements away: every element left is an element of the original list |
| `Positions.KeepFromAgree` | AppleMusicBottomSheet/MusicImporter.swift:61-68 | only the positions at or after `lo` affect what is kept from `lo` on |
| `Positions.KeepFromPrefix` | AppleMusicBottomSheet/MusicImporter.swift:61-68 | a stretch with no selected position is kept whole |
| `Positions.OutOfRangeIgnored` | AppleMusicBottomSheet/MusicImporter.swift:39 | a position past the end removes nothing, as the guard in `deleteTrack(at:)` has it |
| `Positions.RemoveBelowRemoved` | AppleMusicBottomSheet/MusicImporter.swift:61-68 | when every position already removed lies above `i`, element `i` is still at `i`, and removing it there equals removing the whole set plus `i` from the original: deleting in descending order deletes exactly the set |
| `Positions.SingletonIsRemoveAt` | AppleMusicBottomSheet/MusicImporter.swift:38-53 | removing the single position `i` is `remove(at: i)` |
| `Positions.NothingRemoved` | AppleMusicBottomSheet/MusicImporter.swift:61-68 | an empty index set leaves the list unchanged |
| `Positions.KeepFromLength` | AppleMusicBottomSheet/MusicImporter.swift:61-68 | from `lo` on, one element is dropped per selected position inside the list |
| `Positions.WithoutLength` | AppleMusicBottomSheet/MusicImporter.swift:61-68 | deleting an index set shortens the list by exactly the number of its positions inside the list |
| `Positions.MaxOf` | AppleMusicBottomSheet/MusicImporter.swift:63 | a non-empty index set has a largest index, so the descending order always has a next element |
| `Library.Migrated` | AppleMusicBottomSheet/MusicImporter.swift:24-31 | a stored version below 2 erases the saved tracks and stores version 2, leaving other keys alone; a version of 2 or more leaves the store untouched; afterwards the version reads at least 2 |
| `Library.IntegerFor` | AppleMusicBottomSheet/MusicImporter.swift:25 | `integer(forKey:)` reads 0 for a missing or non-numeric value and truncates a stored number toward zero |
| `Library.MigratedIdempotent` | AppleMusicBottomSheet/MusicImporter.swift:24-31 | checking the version twice is the same as checking it once |
| `Library.Saved` | AppleMusicBottomSheet/MusicImporter.swift:70-88 | the stored array has one dictionary per track, in order, holding title, artist, file name and duration |
| `Library.UrlPath` | AppleMusicBottomSheet/MusicImporter.swift:75 | the saved `urlPath` is the slash-free tail of the track's file path, or "" for a track without a file |
| `Library.EncodeTrack` | AppleMusicBottomSheet/MusicImporter.swift:72-77 | a track's dictionary has exactly the keys title, artist, urlPath and duration, and they read back as the track's title, artist, file name and duration |
| `Library.AsRecords` | AppleMusicBottomSheet/MusicImporter.swift:91 | `as? [[String: Any]]` succeeds exactly on an array whose every item is a dictionary, and then yields those dictionaries in order |
| `Library.StringField` | AppleMusicBottomSheet/MusicImporter.swift:96-98 | `data[key] as? String` succeeds exactly on a string value, and gives that string |
| `Library.NumberField` | AppleMusicBottomSheet/MusicImporter.swift:103 | `data[key] as? TimeInterval ?? 0` gives a stored number, and 0 for a missing or non-numeric value |
| `Library.DecodeRecord` | AppleMusicBottomSheet/MusicImporter.swift:95-112 | a record loads exactly when title, artist and urlPath are strings and the file exists in the documents directory; the track then has those fields, that file and the stored duration, or 0 when it is missing |
| `Library.DecodeAll` | AppleMusicBottomSheet/MusicImporter.swift:95-112 | loading keeps at most one track per record, every loaded track's file exists, and the identities are fresh ones from the given range, strictly increasing and so distinct |
| `Library.DecodeAllKeeps` | AppleMusicBottomSheet/MusicImporter.swift:95-112 | every saved record with string title, artist and urlPath whose file exists is loaded, as its own decode under the identity of its position |
| `Library.DecodeAllSound` | AppleMusicBottomSheet/MusicImporter.swift:95-112 | every loaded track is the decode of the saved record at the position its identity names; with the increasing identities this keeps saved order |
| `Library.EncodeAll` | AppleMusicBottomSheet/MusicImporter.swift:71-86 | one record per track, in order |
| `Library.DecodeEncodedTrack` | AppleMusicBottomSheet/MusicImporter.swift:70-112 | a saved track whose file is present loads back with the same title, artist and duration, its file re-pointed into the documents directory |
| `Library.DecodeEncoded` | AppleMusicBottomSheet/MusicImporter.swift:70-112 | saving a list whose files are all present and loading it back gives the same number of tracks, each reloaded from the one at the same position |
| `Library.ConsReloaded` | AppleMusicBottomSheet/MusicImporter.swift:95-112 | prepending the reloaded first track to the reloaded rest gives the reloaded list, position by position |
| `Library.LoadAfterSave` | AppleMusicBottomSheet/MusicImporter.swift:70-112 | what `saveTracks` stores is readable as records, and `loadSavedTracks` gives back every track in order |
| `Library.SaveAfterLoad` | AppleMusicBottomSheet/MusicImporter.swift:70-112 | saving again after a reload stores exactly what was stored before, when every track had a named file still present |
| `Library.OldFormatStartsEmpty` | AppleMusicBottomSheet/MusicImporter.swift:19-31 | a store from before version 2 starts the library empty |
| `Library.RestartAfterSave` | AppleMusicBottomSheet/MusicImporter.swift:19-22 | at startup, a current-format store written by `saveTracks` gives back the saved library |
| `Library.FirstIndexOfId` | AppleMusicBottomSheet/MusicImporter.swift:56 | `firstIndex(where:)` finds the first track with the identity, or reports that none has it |
| `Library.DeleteStep` | AppleMusicBottomSheet/MusicImporter.swift:61-68 | with every deleted position above `index`, `deleteTrack(at: index)` on the shortened list deletes original position `index` and its file, and an index past the end deletes nothing |
| `Library.MusicLibrary.constructor` | AppleMusicBottomSheet/MusicImporter.swift:19-22 | startup migrates the store and then loads the saved tracks from the migrated store |
| `Library.MusicLibrary.CheckDataVersion` | AppleMusicBottomSheet/MusicImporter.swift:24-31 | the store becomes its migrated form; tracks and files stay |
| `Library.MusicLibrary.SaveTracks` | AppleMusicBottomSheet/MusicImporter.swift:70-88 | the store afterwards holds exactly the current list under the tracks key, other keys unchanged |
| `Library.MusicLibrary.LoadSavedTracks` | AppleMusicBottomSheet/MusicImporter.swift:90-113 | with a readable saved array the tracks become `DecodeAll` of its records, which by `DecodeAllKeeps` and `DecodeAllSound` are exactly the accepted records, in saved order; otherwise the tracks stay as they were |
| `Library.MusicLibrary.AddTracks` | AppleMusicBottomSheet/MusicImporter.swift:33-36 | the tracks become the old tracks followed by the new ones, and the list is saved |
| `Library.MusicLibrary.DeleteTrackAt` | AppleMusicBottomSheet/MusicImporter.swift:38-53 | a valid index removes exactly that element and its file and saves the list; a negative or too-large index changes nothing |
| `Library.MusicLibrary.DeleteTrack` | AppleMusicBottomSheet/MusicImporter.swift:55-59 | removes the first track with a matching identity, with its file, and saves the list under the tracks key only; a track not in the list changes nothing |
| `Library.MusicLibrary.DeleteTracks` | AppleMusicBottomSheet/MusicImporter.swift:61-68 | the list becomes the old list without exactly the in-range positions of the set and the files of those tracks go; if anything was deleted the list is saved under the tracks key and every other key of the store is kept, otherwise the store is untouched |
| `TrackInfo.LastIndex` | AppleMusicBottomSheet/MusicImporter.swift:191-210 | the item found is the last one with the key and a string value, and none is found exactly when no item has both |
| `TrackInfo.LastValueStep` | AppleMusicBottomSheet/MusicImporter.swift:191-202 | one more metadata item overrides the value found so far exactly when it has the key and a string value |
| `TrackInfo.ExtractTrackInfo` | AppleMusicBottomSheet/MusicImporter.swift:177-216 | the title defaults to the file name without its extension and the artist to "Unknown Artist", and the last title or artist item with a string value overrides each; when loading the asset fails, the defaults stay and the duration is 0 |
| `Clock.Digits` | AppleMusicBottomSheet/View/ExpandedBottomSheet.swift:288 | `%d` of a natural is one or more digits, one digit exactly below 10, with no leading zero |
| `Clock.ValueOfDigits` | AppleMusicBottomSheet/View/ExpandedBottomSheet.swift:286-288 | reading the printed digits of `n` gives `n` |
| `Clock.Decimal` | AppleMusicBottomSheet/View/ExpandedBottomSheet.swift:288 | `%d` prints a non-negative value as digits that read back as the value, and a negative one as `-` followed by the digits of its magnitude |
| `Clock.TwoDigits` | AppleMusicBottomSheet/View/ExpandedBottomSheet.swift:288 | `%02d` prints at least two characters, exactly two below 100, and a non-negative value reads back from them |
| `Clock.SecondsField` | AppleMusicBottomSheet/View/ExpandedBottomSheet.swift:287-288 | the seconds field below 60 prints as exactly two digits, the first below 6, and reads back as the seconds |
| `Clock.Format` | AppleMusicBottomSheet/View/MusicRowView.swift:70-74 | for non-negative seconds the label ends in ':' and two digits, the first below 6 |
| `Clock.Parse` | AppleMusicBottomSheet/View/ExpandedBottomSheet.swift:288 | a label that reads as "m:ss" denotes a non-negative number of seconds |
| `Clock.FormatParse` | AppleMusicBottomSheet/View/ExpandedBottomSheet.swift:285-289 | minutes times 60 plus seconds, read back from the label, is the whole number of seconds rendered |
| `Clock.FormatSeconds` | AppleMusicBottomSheet/View/ExpandedBottomSheet.swift:285-289 | `formatTime` (and its copy `formatDuration`) of a non-negative time reads back as the whole seconds of the time, with a two-digit seconds field below 60 |
| `ExpandedSheet.DragProgress` | AppleMusicBottomSheet/View/ExpandedBottomSheet.swift:168 | the drag fraction is clamped to `[0, 1]`: inside it is `x / width`, below it 0, above it 1 |
| `ExpandedSheet.ElapsedWidth` | AppleMusicBottomSheet/View/ExpandedBottomSheet.swift:162 | the elapsed bar is never negative, and is no wider than the track while the time is within the duration |
| `ExpandedSheet.SeekDragMovesBar` | AppleMusicBottomSheet/View/ExpandedBottomSheet.swift:160-171 | after a seek drag on a track of at least one second, the elapsed bar ends at the clamped finger position |
| `ExpandedSheet.OnSeekDragChanged` | AppleMusicBottomSheet/View/ExpandedBottomSheet.swift:167-171 | the seek time is the clamped fraction times the duration, so it lies in `[0, duration]`; nothing else changes |
| `ExpandedSheet.OnVolumeDragChanged` | AppleMusicBottomSheet/View/ExpandedBottomSheet.swift:238-241 | the volume becomes the clamped fraction in `[0, 1]`; a present player keeps its file and running state and takes the new volume; nothing else changes |
| `ExpandedSheet.CornerProgress` | AppleMusicBottomSheet/View/ExpandedBottomSheet.swift:21-22 | corner progress is never negative, is 1 at rest, at most 1 while dragged down, and 0 exactly once the sheet is pulled half its height |
| `ExpandedSheet.ShouldDismiss` | AppleMusicBottomSheet/View/ExpandedBottomSheet.swift:96 | without velocity the sheet dismisses exactly when dragged past 40% of its height; a drag past that line dismisses unless flung upward, and a drag short of it stays unless flung downward |
| `ExpandedSheet.Sheet.constructor` | AppleMusicBottomSheet/View/ExpandedBottomSheet.swift:11-16 | the sheet starts shown, content not yet animated in, not dragged |
| `ExpandedSheet.Sheet.OnAppear` | AppleMusicBottomSheet/View/ExpandedBottomSheet.swift:108-112 | appearing animates the content in and changes nothing else |
| `ExpandedSheet.Sheet.OnDragChanged` | AppleMusicBottomSheet/View/ExpandedBottomSheet.swift:91-93 | the offset is the translation if it is positive and 0 otherwise, so it is never negative |
| `ExpandedSheet.Sheet.OnDragEnded` | AppleMusicBottomSheet/View/ExpandedBottomSheet.swift:94-104 | if offset plus 0.3 times velocity passes 0.4 of the height, the sheet dismisses and content is un-animated; otherwise only the offset changes; the offset ends at 0 either way |
| `MusicRow.DurationLine` | AppleMusicBottomSheet/View/MusicRowView.swift:45-49 | the duration line is shown exactly when the duration is positive, and then reads back as its whole seconds |
| `MusicRow.PlayingIndicator` | AppleMusicBottomSheet/View/MusicRowView.swift:55-65 | the speaker shows exactly on the current track's row while playing, the pause icon exactly on it while paused, and no icon when there is no current track or the identity differs |
| `MusicRow.AtMostOneMarkedRow` | AppleMusicBottomSheet/View/MusicRowView.swift:55 | in a list of distinct identities, at most one row carries an indicator |
| `MusicRow.LoadedLibraryMarksOneRow` | AppleMusicBottomSheet/View/MusicRowView.swift:55 | in a library loaded from the store, whose identities are distinct, at most one row carries an indicator |
| `Home.OnAppear` | AppleMusicBottomSheet/View/Home.swift:44-48 | the library is appended to the queue only when the library is non-empty and the queue empty, and then, with no current track, the cursor goes to 0 and the first track loads into a stopped player at time 0, or, when it cannot load, nothing becomes current; a current track, its player, time and duration are kept; otherwise the session is unchanged |
| `Home.OnRowTap` | AppleMusicBottomSheet/View/Home.swift:174-177 | the queue becomes the library, the cursor the tapped row, and the session plays; a loadable row becomes current at time 0 with its duration and a running player; an unloadable one leaves track, time and duration and resumes the old player |
| `Home.OnDelete` | AppleMusicBottomSheet/View/Home.swift:179-200 | the library loses exactly the selected rows and their files, and the store changes only under the tracks key. Playback is paused if a selected row held the current track. With tracks left, the queue becomes the library at cursor 0 and the first track loads into a stopped player with its duration at time 0, or, when it cannot load, the old track, time and duration stay with the player as the pause left it. With none left, the queue is empty, nothing is current and nothing plays, and the cursor keeps its old value |

## Left out

- Library.DecodeRecord: takes the set of existing files as a parameter. A saved `urlPath` of "" names the documents directory itself, which `fileExists(atPath:)` reports as present; the model loads such a record only when the given set contains the documents directory.
- Audio session setup, remote transport commands and now-playing info (`AudioManager.swift:25-62, 172-188`) are calls into media frameworks with no state of this model.
- The 0.1-second timer that copies the player's position into `currentTime` is a clock-driven callback and is not modelled. So `currentTime` changes only by loading, seeking and clearing.
- `AVAudioPlayer` itself is reduced to the file it was opened on, whether it runs, and its volume. `prepareToPlay`, the delegate hookup and the player's own position are not modelled.
- Audio.AudioManager.PreviousTrack: requires a cursor no further than one past the playlist's end. The source indexes the playlist with the new cursor and traps otherwise. This can only arise after `setPlaylist` with an out-of-range start index kept an old cursor.
- Audio.AudioManager.SetPlaylist: requires a non-negative start index on a non-empty list, because the source traps when indexing with a negative one.
- Audio.AudioManager.Seek: the player's own position (`player?.currentTime`) is not modelled, only the published `currentTime`.
- Home.OnDelete: requires every selected row to be inside the library when a track is current, because the source indexes the library with each row there. The list view only hands over visible rows.
- Home.OnDelete: the pause check runs over the rows in ascending order, as iterating an `IndexSet` does. Pausing twice equals pausing once, so the order does not matter.
- ExpandedSheet.DragProgress: requires a non-zero bar width. Division by zero in `CGFloat` gives infinity or NaN, which are not modelled.
- ExpandedSheet.CornerProgress: requires a non-zero height, for the same reason.
- Library.MusicLibrary.constructor: the store and the file system are fields of the library rather than process-wide services, and the fresh identities are `firstId + k` instead of random UUIDs.
- `UserDefaults.integer(forKey:)` is modelled on stored numbers only. Strings and booleans that `UserDefaults` would convert read as 0 here.
- File deletion with `try? FileManager.removeItem` is modelled as always succeeding, and copying an imported file is not modelled.
- Artwork (`UIImage` and its JPEG bytes) is dropped from tracks, from saved records and from metadata.
- The document picker, the asynchronous import job and `AVAsset` loading (`MusicImporter.swift:116-175`) are I/O. `ExtractTrackInfo` takes the asset's outcome (its duration and metadata, or failure) as a parameter.
- Paths.FileStem: models `deletingPathExtension().lastPathComponent` on slash-separated strings. `URL`'s handling of trailing slashes, percent-encoding and other special names is not modelled.
- Clock.FormatSeconds: the contract covers non-negative times only. Negative times render through the same truncating arithmetic but are not specified, and `Int()` of NaN or infinity, which traps, is not modelled.
- Paths.LastPathComponent: a path ending in `/` gives "" here, while `URL.lastPathComponent` skips a trailing slash. The documents directory and the saved file names never end in `/`.
- Clock.FormatSeconds: `Int(time)` also traps for finite times beyond the range of `Int`; integers here are unbounded, so that trap is not modelled.
- Audio.AudioManager.LoadTrack: whether a player opens on a file is a fixed function of the file (`AudioManager.media`), so a file the library has deleted can still load in the model.
- `Float`/`CGFloat`/`TimeInterval` rounding is not modelled: all such values are exact reals, including the `Float(progress)` conversion of the volume.
- MusicInfo.swift is not part of this model. Its only actions call `togglePlayPause` and `nextTrack` or set `expandSheet`.
- SwiftUI layout, animation, matched-geometry effects and the delayed tab-bar hiding (`Home.swift:56-63`) are presentation only.
