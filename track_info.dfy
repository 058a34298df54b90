/**
 * Building a track from an imported file: the title defaults to the file
 * name without its extension and the artist to "Unknown Artist", and the
 * file's common metadata overrides either.
 */
module TrackInfo {
  import opened Wrappers
  import opened Paths
  import opened Tracks

  /** The common metadata keys the import looks at; the rest are `OtherKey`. */
  datatype CommonKey = TitleKey | ArtistKey | ArtworkKey | OtherKey

  /** A metadata item: its common key, if any, and its string value, if any. */
  datatype MetadataItem = MetadataItem(commonKey: Option<CommonKey>, stringValue: Option<string>)

  /** What loading the asset yields: its duration in seconds and its common metadata. */
  datatype Asset = Asset(seconds: real, metadata: seq<MetadataItem>)

  const UnknownArtist := "Unknown Artist"

  /** `item` has common key `key` and a string value. */
  predicate Supplies(item: MetadataItem, key: CommonKey)
  {
    item.commonKey == Some(key) && item.stringValue.Some?
  }

  /** The position of the last item that supplies `key`, if any. */
  function LastIndex(items: seq<MetadataItem>, key: CommonKey): (r: Option<nat>)
    ensures r.Some? ==> r.value < |items| && Supplies(items[r.value], key)
    ensures r.Some? ==> forall j :: r.value < j < |items| ==> !Supplies(items[j], key)
    ensures r.None? ==> forall j :: 0 <= j < |items| ==> !Supplies(items[j], key)
  {
    if items == [] then None
    else if Supplies(items[|items| - 1], key) then Some(|items| - 1)
    else
      var earlier := LastIndex(items[..|items| - 1], key);
      assert forall j :: 0 <= j < |items| - 1 ==> items[..|items| - 1][j] == items[j];
      earlier
  }

  /** The string value of the last item with common key `key` that has one. */
  function LastValue(items: seq<MetadataItem>, key: CommonKey): Option<string>
  {
    match LastIndex(items, key)
    case Some(k) => items[k].stringValue
    case None => None
  }

  /** Looking one item further: that item wins if it supplies `key`. */
  lemma LastValueStep(items: seq<MetadataItem>, i: nat, key: CommonKey)
    requires i < |items|
    ensures LastValue(items[..i + 1], key)
            == if Supplies(items[i], key) then items[i].stringValue else LastValue(items[..i], key)
  {
    assert items[..i + 1][..i] == items[..i];
  }

  /** `value` when there is one, `fallback` otherwise. */
  function OrElse(value: Option<string>, fallback: string): string
  {
    if value.Some? then value.value else fallback
  }

  /**
   * `extractTrackInfo`: the track for the imported file at `url`, given the
   * outcome of loading its asset. `asset` is `None` when the load throws;
   * then the metadata is not read and the duration stays 0.
   */
  method ExtractTrackInfo(url: Url, id: TrackId, asset: Option<Asset>) returns (track: AudioTrack)
    ensures track.id == id && track.url == Some(url)
    ensures asset.None? ==>
      track.title == FileStem(url) && track.artist == UnknownArtist && track.duration == 0.0
    ensures asset.Some? ==>
      && track.title == OrElse(LastValue(asset.value.metadata, TitleKey), FileStem(url))
      && track.artist == OrElse(LastValue(asset.value.metadata, ArtistKey), UnknownArtist)
      && track.duration == asset.value.seconds
  {
    var fileName := FileStem(url);
    var title := fileName;
    var artist := UnknownArtist;
    var duration := 0.0;
    if asset.Some? {
      duration := asset.value.seconds;
      var metadata := asset.value.metadata;
      for i := 0 to |metadata|
        invariant title == OrElse(LastValue(metadata[..i], TitleKey), fileName)
        invariant artist == OrElse(LastValue(metadata[..i], ArtistKey), UnknownArtist)
      {
        LastValueStep(metadata, i, TitleKey);
        LastValueStep(metadata, i, ArtistKey);
        var item := metadata[i];
        if item.commonKey.None? {
          continue;
        }
        match item.commonKey.value
        case TitleKey =>
          if item.stringValue.Some? {
            title := item.stringValue.value;
          }
        case ArtistKey =>
          if item.stringValue.Some? {
            artist := item.stringValue.value;
          }
        case ArtworkKey =>
        case OtherKey =>
      }
      assert metadata[..|metadata|] == metadata;
    }
    track := AudioTrack(id, title, artist, Some(url), duration);
  }
}
