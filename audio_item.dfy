/**
 * An audio item: its sound URLs by quality, the fallback chains that pick one
 * of them, and the metadata it fills in from the asset.
 */
module Item {
  import opened Wrappers

  /** `AudioQuality`, an `Int` enumeration low = 0, medium = 1, high = 2. */
  datatype Quality = Low | Medium | High
  {
    function RawValue(): int
    {
      match this
      case Low => 0
      case Medium => 1
      case High => 2
    }
  }

  /** `AudioQuality(rawValue:)`: fails outside 0..2. */
  function QualityFromRaw(raw: int): (r: Option<Quality>)
    ensures r.Some? <==> 0 <= raw <= 2
    ensures r.Some? ==> r.value.RawValue() == raw
  {
    if raw == 0 then Some(Low)
    else if raw == 1 then Some(Medium)
    else if raw == 2 then Some(High)
    else None
  }

  /** A URL is kept as its text. */
  type Url = string

  /** `AudioItemURL`: a quality and the URL stored for it. */
  datatype ItemUrl = ItemUrl(quality: Quality, url: Url)

  /** The failable `AudioItemURL` initialiser: no URL, no value. */
  function MakeItemUrl(quality: Quality, url: Option<Url>): (r: Option<ItemUrl>)
    ensures r.None? <==> url.None?
    ensures r.Some? ==> r.value.quality == quality && url == Some(r.value.url)
  {
    match url
    case None => None
    case Some(u) => Some(ItemUrl(quality, u))
  }

  /** `soundURLs[q]` */
  function Lookup(urls: map<Quality, Url>, q: Quality): (r: Option<Url>)
    ensures r.Some? <==> q in urls
    ensures r.Some? ==> urls[q] == r.value
  {
    if q in urls then Some(urls[q]) else None
  }

  /** `a ?? b` on optional item URLs. */
  function OrElse(a: Option<ItemUrl>, b: Option<ItemUrl>): Option<ItemUrl>
  {
    if a.Some? then a else b
  }

  /** `highestQualityURL`: high, else medium, else low; force-unwrapped. */
  function HighestQualityUrl(urls: map<Quality, Url>): (r: ItemUrl)
    requires |urls| > 0
    ensures r.quality in urls && urls[r.quality] == r.url
  {
    var r := OrElse(MakeItemUrl(High, Lookup(urls, High)),
             OrElse(MakeItemUrl(Medium, Lookup(urls, Medium)),
                    MakeItemUrl(Low, Lookup(urls, Low))));
    KeysAreQualities(urls);
    r.value
  }

  /** `mediumQualityURL`: medium, else low, else high; force-unwrapped. */
  function MediumQualityUrl(urls: map<Quality, Url>): (r: ItemUrl)
    requires |urls| > 0
    ensures r.quality in urls && urls[r.quality] == r.url
  {
    var r := OrElse(MakeItemUrl(Medium, Lookup(urls, Medium)),
             OrElse(MakeItemUrl(Low, Lookup(urls, Low)),
                    MakeItemUrl(High, Lookup(urls, High))));
    KeysAreQualities(urls);
    r.value
  }

  /** `lowestQualityURL`: low, else medium, else high; force-unwrapped. */
  function LowestQualityUrl(urls: map<Quality, Url>): (r: ItemUrl)
    requires |urls| > 0
    ensures r.quality in urls && urls[r.quality] == r.url
  {
    var r := OrElse(MakeItemUrl(Low, Lookup(urls, Low)),
             OrElse(MakeItemUrl(Medium, Lookup(urls, Medium)),
                    MakeItemUrl(High, Lookup(urls, High))));
    KeysAreQualities(urls);
    r.value
  }

  /** `url(for:)`: the chain that starts at the requested quality. */
  function UrlFor(urls: map<Quality, Url>, quality: Quality): (r: ItemUrl)
    requires |urls| > 0
    ensures r.quality in urls && urls[r.quality] == r.url
    ensures quality in urls ==> r.quality == quality
  {
    match quality
    case High => HighestQualityUrl(urls)
    case Medium => MediumQualityUrl(urls)
    case Low => LowestQualityUrl(urls)
  }

  /** A non-empty map over the three qualities holds at least one of them. */
  lemma KeysAreQualities(urls: map<Quality, Url>)
    requires |urls| > 0
    ensures High in urls || Medium in urls || Low in urls
  {
    var q :| q in urls;
    assert q == High || q == Medium || q == Low;
  }

  /** The order in which `url(for:)` tries the qualities. */
  function Preference(quality: Quality): (order: seq<Quality>)
    ensures |order| == 3 && order[0] == quality
    ensures High in order && Medium in order && Low in order
  {
    match quality
    case High => [High, Medium, Low]
    case Medium => [Medium, Low, High]
    case Low => [Low, Medium, High]
  }

  /** The first quality of `order` that has a URL, an independent statement of a `??` chain. */
  function FirstPresent(order: seq<Quality>, urls: map<Quality, Url>): (r: Option<Quality>)
    ensures r.Some? ==> r.value in order && r.value in urls
    ensures r.None? ==> forall q :: q in order ==> q !in urls
  {
    if order == [] then None
    else if order[0] in urls then Some(order[0])
    else FirstPresent(order[1..], urls)
  }

  /** `url(for: q)` returns the first present quality of q's chain, with its stored URL. */
  lemma UrlForFollowsPreference(urls: map<Quality, Url>, quality: Quality)
    requires |urls| > 0
    ensures FirstPresent(Preference(quality), urls) == Some(UrlFor(urls, quality).quality)
  {
    KeysAreQualities(urls);
  }

  /** The contents of an item's metadata that parsing may fill. */
  datatype Image = Image(width: real, height: real)

  /** The value carried by a metadata entry; only the casts the parser performs matter. */
  datatype MetaValue =
    | StringValue(text: string)
    | NumberValue(number: int)
    /** Raw bytes and the image the platform decodes from them, if any. */
    | DataValue(bytes: seq<bv8>, decoded: Option<Image>)
    | OtherValue

  /** The common keys the parser looks at; any other key is ignored. */
  datatype MetaKey = TitleKey | ArtistKey | AlbumNameKey | TrackNumberKey | ArtworkKey | OtherKey(name: string)

  datatype MetadataEntry = MetadataEntry(commonKey: Option<MetaKey>, value: MetaValue)

  /** `value as? String` */
  function AsString(v: MetaValue): Option<string>
  {
    if v.StringValue? then Some(v.text) else None
  }

  /** `value as? NSNumber` */
  function AsNumber(v: MetaValue): Option<int>
  {
    if v.NumberValue? then Some(v.number) else None
  }

  /** `(value as? Data).flatMap { UIImage(data: $0) }` */
  function AsImage(v: MetaValue): Option<Image>
  {
    if v.DataValue? then v.decoded else None
  }

  /** The metadata fields of an item that parsing fills, as one value. */
  datatype Metadata = Metadata(
    title: Option<string>,
    artist: Option<string>,
    album: Option<string>,
    trackNumber: Option<int>,
    artwork: Option<Image>)

  /** The effect of one entry: a known key fills its field only while that field is empty. */
  function ApplyEntry(md: Metadata, e: MetadataEntry): Metadata
  {
    match e.commonKey
    case None => md
    case Some(key) =>
      match key
      case TitleKey => if md.title.None? then md.(title := AsString(e.value)) else md
      case ArtistKey => if md.artist.None? then md.(artist := AsString(e.value)) else md
      case AlbumNameKey => if md.album.None? then md.(album := AsString(e.value)) else md
      case TrackNumberKey => if md.trackNumber.None? then md.(trackNumber := AsNumber(e.value)) else md
      case ArtworkKey => if md.artwork.None? then md.(artwork := AsImage(e.value)) else md
      case OtherKey(_) => md
  }

  /** The entries applied one after another, in order. */
  function ParseAll(md: Metadata, entries: seq<MetadataEntry>): Metadata
    decreases |entries|
  {
    if entries == [] then md else ParseAll(ApplyEntry(md, entries[0]), entries[1..])
  }

  /** A field that is already set is never changed by parsing. */
  lemma {:induction false} ParseNeverOverwrites(md: Metadata, entries: seq<MetadataEntry>)
    ensures md.title.Some? ==> ParseAll(md, entries).title == md.title
    ensures md.artist.Some? ==> ParseAll(md, entries).artist == md.artist
    ensures md.album.Some? ==> ParseAll(md, entries).album == md.album
    ensures md.trackNumber.Some? ==> ParseAll(md, entries).trackNumber == md.trackNumber
    ensures md.artwork.Some? ==> ParseAll(md, entries).artwork == md.artwork
    decreases |entries|
  {
    if entries != [] {
      var next := ApplyEntry(md, entries[0]);
      assert md.title.Some? ==> next.title == md.title;
      assert md.artist.Some? ==> next.artist == md.artist;
      assert md.album.Some? ==> next.album == md.album;
      assert md.trackNumber.Some? ==> next.trackNumber == md.trackNumber;
      assert md.artwork.Some? ==> next.artwork == md.artwork;
      ParseNeverOverwrites(next, entries[1..]);
    }
  }

  /** Entries without a common key, or with a key the parser does not know, change nothing. */
  lemma {:induction false} ParseSkipsUnknown(md: Metadata, entries: seq<MetadataEntry>)
    requires forall i :: 0 <= i < |entries| ==> entries[i].commonKey.None? || entries[i].commonKey.value.OtherKey?
    ensures ParseAll(md, entries) == md
    decreases |entries|
  {
    if entries != [] {
      ParseSkipsUnknown(md, entries[1..]);
    }
  }

  /** With an empty title, a first entry that is a title sets the title to its string cast, for good if the cast succeeds. */
  lemma {:induction false} ParseTakesFirstTitle(md: Metadata, v: MetaValue, rest: seq<MetadataEntry>)
    requires md.title.None? && AsString(v).Some?
    ensures ParseAll(md, [MetadataEntry(Some(TitleKey), v)] + rest).title == AsString(v)
  {
    var entries := [MetadataEntry(Some(TitleKey), v)] + rest;
    assert entries[1..] == rest;
    ParseNeverOverwrites(ApplyEntry(md, entries[0]), rest);
  }

  /** `AudioItem`: an object whose URLs are fixed and whose metadata is filled in place. */
  class AudioItem {
    const soundURLs: map<Quality, Url>
    var artist: Option<string>
    var title: Option<string>
    var album: Option<string>
    var trackCount: Option<int>
    var trackNumber: Option<int>
    var artwork: Option<Image>

    /** The failable initialiser only returns an item whose URL map is not empty. */
    ghost predicate Valid()
    {
      |soundURLs| > 0
    }

    /** The parsed metadata fields as one value. */
    function Meta(): (md: Metadata)
      reads this
    {
      Metadata(title, artist, album, trackNumber, artwork)
    }

    constructor (urls: map<Quality, Url>)
      requires |urls| > 0
      ensures Valid() && soundURLs == urls
      ensures artist.None? && title.None? && album.None? && trackCount.None? && trackNumber.None? && artwork.None?
    {
      soundURLs := urls;
      artist, title, album := None, None, None;
      trackCount, trackNumber, artwork := None, None, None;
    }

    /** `url(for:)` on this item. */
    function UrlForQuality(quality: Quality): (r: ItemUrl)
      requires Valid()
      ensures r.quality in soundURLs && soundURLs[r.quality] == r.url
      ensures quality in soundURLs ==> r.quality == quality
    {
      UrlFor(soundURLs, quality)
    }

    /** `parseMetadata`: walks the entries, filling each known field only while it is empty. */
    method ParseMetadata(entries: seq<MetadataEntry>)
      modifies this
      ensures Meta() == ParseAll(old(Meta()), entries)
      ensures trackCount == old(trackCount)
    {
      var i := 0;
      while i < |entries|
        invariant 0 <= i <= |entries|
        invariant ParseAll(old(Meta()), entries) == ParseAll(Meta(), entries[i..])
        invariant trackCount == old(trackCount)
      {
        var e := entries[i];
        assert entries[i..][1..] == entries[i + 1..];
        if e.commonKey.Some? {
          match e.commonKey.value
          case TitleKey =>
            if title.None? { title := AsString(e.value); }
          case ArtistKey =>
            if artist.None? { artist := AsString(e.value); }
          case AlbumNameKey =>
            if album.None? { album := AsString(e.value); }
          case TrackNumberKey =>
            if trackNumber.None? { trackNumber := AsNumber(e.value); }
          case ArtworkKey =>
            if artwork.None? { artwork := AsImage(e.value); }
          case OtherKey(_) =>
        }
        i := i + 1;
      }
    }
  }

  /** `init?(soundURLs:)`: no item for an empty URL map. */
  method NewItem(urls: map<Quality, Url>) returns (item: AudioItem?)
    ensures item == null <==> |urls| == 0
    ensures item != null ==> fresh(item) && item.Valid() && item.soundURLs == urls && item.Meta() == Metadata(None, None, None, None, None)
  {
    if |urls| == 0 {
      item := null;
    } else {
      item := new AudioItem(urls);
    }
  }

  /** The URL map built by the three-optional initialiser: assigning nil leaves the key out. */
  function UrlsFromOptionals(high: Option<Url>, medium: Option<Url>, low: Option<Url>): (urls: map<Quality, Url>)
    ensures Lookup(urls, High) == high && Lookup(urls, Medium) == medium && Lookup(urls, Low) == low
    ensures |urls| == 0 <==> high.None? && medium.None? && low.None?
  {
    var m0: map<Quality, Url> := map[];
    var m1 := if high.Some? then m0[High := high.value] else m0;
    var m2 := if medium.Some? then m1[Medium := medium.value] else m1;
    var m3 := if low.Some? then m2[Low := low.value] else m2;
    if high.None? && medium.None? && low.None? then
      assert m3 == map[];
      m3
    else
      var k := if high.Some? then High else if medium.Some? then Medium else Low;
      assert k in m3.Keys;
      m3
  }

  /** The three-optional initialiser: fails iff all three URLs are missing. */
  method NewItemFromOptionals(high: Option<Url>, medium: Option<Url>, low: Option<Url>) returns (item: AudioItem?)
    ensures item == null <==> high.None? && medium.None? && low.None?
    ensures item != null ==> fresh(item) && item.Valid() && item.soundURLs == UrlsFromOptionals(high, medium, low)
  {
    item := NewItem(UrlsFromOptionals(high, medium, low));
  }

  /** The single-URL initialiser stores the URL as the high quality one, and never fails. */
  method NewItemFromUrl(url: Url) returns (item: AudioItem?)
    ensures item != null && fresh(item) && item.Valid() && item.soundURLs == map[High := url]
  {
    item := NewItem(map[High := url]);
  }
}
