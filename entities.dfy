/** The dataclasses of the wrapper and their `from_json` constructors: SearchResult, RadioSong,
    Song, Artist, Album, Artwork and ArtworkSize. Every field the constructors copy from the
    response without conversion keeps its JSON value here, as the dataclasses do not check
    types; Python's None in a `url` field is JSON null. A decoder that builds a list in a `for`
    loop is a method proved equal to a function of the input (DecodeArtwork, DecodeSong,
    DecodeRadioSong, DecodeSearchResult); the other decoders are functions. */
module Entities {
  import opened Wrappers
  import opened PyJson
  import opened Strings
  import Decimal

  datatype ArtworkSize = ArtworkSize(url: Json, width: Json, height: Json, aspectRatio: Json)

  datatype Artwork = Artwork(url: Json, artworkType: Json, sizes: seq<ArtworkSize>)

  datatype Album = Album(url: Json, title: Json, artwork: Option<Artwork>, releaseYear: Option<int>)

  datatype Artist = Artist(url: Json, name: Json, isAustralian: bool)

  datatype Song = Song(title: Json, duration: Json, artists: seq<Artist>, album: Option<Album>,
                       url: Json)

  /** `played_time` is kept as the string `datetime.fromisoformat` is given. */
  datatype RadioSong = RadioSong(playedTime: string, channel: Json, song: Song)

  datatype SearchResult = SearchResult(total: Json, offset: Json, limit: Json,
                                       radioSongs: seq<RadioSong>)

  /** What a `for` loop appending `decode(x)` for each `x` computes: the decoded elements in
      order, or the exception of the first element that fails. */
  function DecodeEach<T>(xs: seq<Json>, decode: Json -> Result<T>): (r: Result<seq<T>>)
    ensures r.Ok? <==> forall i :: 0 <= i < |xs| ==> decode(xs[i]).Ok?
    ensures r.Ok? ==> |r.value| == |xs| && forall i :: 0 <= i < |xs| ==> decode(xs[i]) == Ok(r.value[i])
    ensures r.Err? ==> exists i :: 0 <= i < |xs| && decode(xs[i]) == Err(r.error)
                                   && forall k :: 0 <= k < i ==> decode(xs[k]).Ok?
  {
    if xs == [] then
      Ok([])
    else
      var init := xs[..|xs| - 1];
      assert forall i :: 0 <= i < |init| ==> init[i] == xs[i];
      var done :- DecodeEach(init, decode);
      var last :- decode(xs[|xs| - 1]);
      Ok(done + [last])
  }

  /** Once a prefix has failed, the rest of the loop is never reached. */
  lemma {:induction false} DecodeEachStopsAtFailure<T>(xs: seq<Json>, n: nat, decode: Json -> Result<T>)
    requires n <= |xs| && DecodeEach(xs[..n], decode).Err?
    ensures DecodeEach(xs, decode) == DecodeEach(xs[..n], decode)
    decreases |xs| - n
  {
    if n < |xs| {
      var init := xs[..|xs| - 1];
      assert init[..n] == xs[..n];
      DecodeEachStopsAtFailure(init, n, decode);
    } else {
      assert xs[..n] == xs;
    }
  }

  /** One more loop step: the prefix decoded so far, extended by the next element. */
  lemma DecodeEachStep<T>(xs: seq<Json>, i: nat, decode: Json -> Result<T>)
    requires i < |xs| && DecodeEach(xs[..i], decode).Ok?
    ensures DecodeEach(xs[..i + 1], decode)
         == match decode(xs[i])
            case Ok(x) => Ok(DecodeEach(xs[..i], decode).value + [x])
            case Err(e) => Err(e)
  {
    assert xs[..i + 1][..i] == xs[..i];
  }

  /** A `for` loop over `v` runs, and every value it visits decodes. */
  predicate Decodable<T>(v: Json, decode: Json -> Result<T>)
  {
    Iterate(v).Ok? && forall i :: 0 <= i < |Iterate(v).value| ==> decode(Iterate(v).value[i]).Ok?
  }

  // ---- ArtworkSize ----

  /** `ArtworkSize.from_json`: the four fields copied as they are. */
  function ArtworkSizeFromJson(j: Json): (r: Result<ArtworkSize>)
    ensures r.Ok? <==> j.Obj? && "url" in j.fields && "width" in j.fields && "height" in j.fields
                       && "aspect_ratio" in j.fields
    ensures r.Ok? ==> r.value == ArtworkSize(j.fields["url"], j.fields["width"],
                                             j.fields["height"], j.fields["aspect_ratio"])
  {
    var url :- Subscript(j, "url");
    var width :- Subscript(j, "width");
    var height :- Subscript(j, "height");
    var aspectRatio :- Subscript(j, "aspect_ratio");
    Ok(ArtworkSize(url, width, height, aspectRatio))
  }

  /** The two integers `aspect_ratio_float` divides: `aspect_ratio.split("x")` must give two
      pieces (ValueError otherwise) that `int()` accepts; a zero height is ZeroDivisionError. A
      non-str `aspect_ratio` has no `split`, AttributeError. The float division itself is not
      modelled. */
  function AspectRatioParts(size: ArtworkSize): (r: Result<(int, int)>)
    ensures r.Ok? ==> r.value.1 != 0
    ensures !size.aspectRatio.Str? ==> r == Err(AttributeError)
    ensures size.aspectRatio.Str? && |Split(size.aspectRatio.s, 'x')| != 2 ==> r == Err(ValueError)
    ensures size.aspectRatio.Str? && |Split(size.aspectRatio.s, 'x')| == 2 ==>
              var w := Decimal.ParseInt(Split(size.aspectRatio.s, 'x')[0]);
              var h := Decimal.ParseInt(Split(size.aspectRatio.s, 'x')[1]);
              && (r.Ok? <==> w.Some? && h.Some? && h.value != 0)
              && (r.Ok? ==> r.value == (w.value, h.value))
              && (w.None? || h.None? ==> r == Err(ValueError))
              && (w.Some? && h == Some(0) ==> r == Err(ZeroDivisionError))
  {
    match size.aspectRatio
    case Str(s) =>
      var parts := Split(s, 'x');
      if |parts| != 2 then Err(ValueError)
      else
        (match (Decimal.ParseInt(parts[0]), Decimal.ParseInt(parts[1]))
         case (Some(w), Some(h)) => if h == 0 then Err(ZeroDivisionError) else Ok((w, h))
         case _ => Err(ValueError))
    case _ => Err(AttributeError)
  }

  /** An aspect ratio written `"WxH"` reads back as W and H. */
  lemma AspectRatioRoundTrip(size: ArtworkSize, w: nat, h: nat)
    requires h > 0
    requires size.aspectRatio == Str(Decimal.NatToString(w) + "x" + Decimal.NatToString(h))
    ensures AspectRatioParts(size) == Ok((w, h))
  {
    var ws, hs := Decimal.NatToString(w), Decimal.NatToString(h);
    SplitRatio(ws, hs);
    Decimal.IntToStringRoundTrip(w);
    Decimal.IntToStringRoundTrip(h);
    assert Decimal.IntToString(w) == ws && Decimal.IntToString(h) == hs;
  }

  /** Two digit strings joined by `x` split back into the two. */
  lemma SplitRatio(ws: string, hs: string)
    requires Decimal.AllDigits(ws) && Decimal.AllDigits(hs)
    ensures Split(ws + "x" + hs, 'x') == [ws, hs]
  {
    assert ws + "x" + hs == ws + ['x'] + hs;
    SplitAtSeparator(ws, hs, 'x');
    SplitWithoutSeparator(hs, 'x');
  }

  // ---- Artwork ----

  /** `Artwork.from_json`: every entry of `sizes` decoded, in order, then `url` and `type`. */
  function DecodeArtwork(j: Json): (r: Result<Artwork>)
    ensures r.Ok? <==> j.Obj? && "sizes" in j.fields && Decodable(j.fields["sizes"], ArtworkSizeFromJson)
                       && "url" in j.fields && "type" in j.fields
    ensures Subscript(j, "sizes") == Ok(Arr([])) && r.Ok? ==> r.value.sizes == []
    ensures forall xs :: Subscript(j, "sizes") == Ok(Arr(xs)) && r.Ok? ==>
              |r.value.sizes| == |xs|
              && forall i :: 0 <= i < |xs| ==> ArtworkSizeFromJson(xs[i]) == Ok(r.value.sizes[i])
    ensures r.Ok? ==> Subscript(j, "url") == Ok(r.value.url) && Subscript(j, "type") == Ok(r.value.artworkType)
  {
    var sizesJson :- Subscript(j, "sizes");
    var elements :- Iterate(sizesJson);
    var sizes :- DecodeEach(elements, ArtworkSizeFromJson);
    var url :- Subscript(j, "url");
    var artworkType :- Subscript(j, "type");
    Ok(Artwork(url, artworkType, sizes))
  }

  method ArtworkFromJson(j: Json) returns (r: Result<Artwork>)
    ensures r == DecodeArtwork(j)
  {
    var sizesJson := Subscript(j, "sizes");
    if sizesJson.Err? {
      return Err(sizesJson.error);
    }
    var elements := Iterate(sizesJson.value);
    if elements.Err? {
      return Err(elements.error);
    }
    var xs := elements.value;
    var sizes: seq<ArtworkSize> := [];
    var i := 0;
    while i < |xs|
      invariant 0 <= i <= |xs|
      invariant DecodeEach(xs[..i], ArtworkSizeFromJson) == Ok(sizes)
    {
      DecodeEachStep(xs, i, ArtworkSizeFromJson);
      var size := ArtworkSizeFromJson(xs[i]);
      if size.Err? {
        DecodeEachStopsAtFailure(xs, i + 1, ArtworkSizeFromJson);
        return Err(size.error);
      }
      sizes := sizes + [size.value];
      i := i + 1;
    }
    assert xs[..i] == xs;
    var url := Subscript(j, "url");
    if url.Err? {
      return Err(url.error);
    }
    var artworkType := Subscript(j, "type");
    if artworkType.Err? {
      return Err(artworkType.error);
    }
    return Ok(Artwork(url.value, artworkType.value, sizes));
  }

  // ---- Links ----

  /** The rule all three link lookups follow, on the value of a `links` field: the `url` of the
      first entry when `len(links) >= 1`, otherwise None. */
  function FirstLinkUrl(links: Json): (r: Result<Json>)
    ensures links.Arr? ==> r == if links.items == [] then Ok(Null) else Subscript(links.items[0], "url")
    ensures links.Obj? ==> r == if links.fields == map[] then Ok(Null) else Err(KeyError)
    ensures links.Null? || links.Bool? || links.Int? ==> r == Err(TypeError)
  {
    var n :- Len(links);
    if n >= 1 then
      var first :- Index(links, 0);
      Subscript(first, "url")
    else
      Ok(Null)
  }

  /** `Album.get_url`: the first-link rule on the album's `links`; a missing key is KeyError. */
  function AlbumGetUrl(j: Json): (r: Result<Json>)
    ensures j.Obj? && "links" !in j.fields ==> r == Err(KeyError)
    ensures forall xs :: Subscript(j, "links") == Ok(Arr(xs)) ==>
              r == if xs == [] then Ok(Null) else Subscript(xs[0], "url")
  {
    var links :- Subscript(j, "links");
    var n :- Len(links);
    if n >= 1 then
      var first :- Index(links, 0);
      Subscript(first, "url")
    else
      Ok(Null)
  }

  /** `Song.get_url`: the first-link rule on `recording["links"]`. */
  function SongGetUrl(j: Json): (r: Result<Json>)
    ensures !j.Obj? ==> r == Err(TypeError)
    ensures j.Obj? && "recording" !in j.fields ==> r == Err(KeyError)
    ensures forall rec :: Subscript(j, "recording") == Ok(rec) && !rec.Obj? ==> r == Err(TypeError)
    ensures forall rec :: Subscript(j, "recording") == Ok(rec) && rec.Obj? && "links" !in rec.fields ==>
              r == Err(KeyError)
    ensures forall rec, xs :: Subscript(j, "recording") == Ok(rec) && Subscript(rec, "links") == Ok(Arr(xs)) ==>
              r == if xs == [] then Ok(Null) else Subscript(xs[0], "url")
  {
    var recording :- Subscript(j, "recording");
    var links :- Subscript(recording, "links");
    var n :- Len(links);
    if n >= 1 then
      var first :- Index(links, 0);
      Subscript(first, "url")
    else
      Ok(Null)
  }

  // ---- Artist ----

  /** `Artist.from_json`: `is_australian` is `bool()` of its field, so None and False both give
      False; the url is looked up inline by the first-link rule; `name` is copied. */
  function ArtistFromJson(j: Json): (r: Result<Artist>)
    ensures j.Obj? && "is_australian" !in j.fields ==> r == Err(KeyError)
    ensures r.Ok? <==> j.Obj? && "is_australian" in j.fields && "links" in j.fields && "name" in j.fields
                       && FirstLinkUrl(j.fields["links"]).Ok?
    ensures r.Ok? ==> r.value.isAustralian == Truthy(j.fields["is_australian"])
                      && r.value.name == j.fields["name"]
  {
    var flag :- Subscript(j, "is_australian");
    var isAustralian := Truthy(flag);
    var links :- Subscript(j, "links");
    var n :- Len(links);
    var url :- if n >= 1 then (var first :- Index(links, 0); Subscript(first, "url")) else Ok(Null);
    var name :- Subscript(j, "name");
    Ok(Artist(url, name, isAustralian))
  }

  /** The album's, the song's and the artist's links are read by one and the same rule. */
  lemma LinkRuleShared(j: Json)
    ensures j.Obj? && "links" in j.fields ==> AlbumGetUrl(j) == FirstLinkUrl(j.fields["links"])
    ensures j.Obj? && "recording" in j.fields && j.fields["recording"].Obj? && "links" in j.fields["recording"].fields
            ==> SongGetUrl(j) == FirstLinkUrl(j.fields["recording"].fields["links"])
    ensures ArtistFromJson(j).Ok? ==> ArtistFromJson(j).value.url == FirstLinkUrl(j.fields["links"]).value
  {
  }

  // ---- Album ----

  /** `Artwork.from_json(json_input["artwork"][0])` under `except IndexError`: an empty artwork
      list gives no artwork, any other exception propagates. */
  function FirstArtwork(j: Json): (r: Result<Option<Artwork>>)
    ensures Subscript(j, "artwork") == Ok(Arr([])) ==> r == Ok(None)
    ensures forall xs :: Subscript(j, "artwork") == Ok(Arr(xs)) && xs != [] ==>
              r == match DecodeArtwork(xs[0]) case Ok(a) => Ok(Some(a)) case Err(e) => Err(e)
    ensures j.Obj? && "artwork" !in j.fields ==> r == Err(KeyError)
  {
    var attempt := (var artworks :- Subscript(j, "artwork");
                    var first :- Index(artworks, 0);
                    DecodeArtwork(first));
    if attempt.Err? && attempt.error == IndexError then
      Ok(None)
    else
      var artwork :- attempt;
      Ok(Some(artwork))
  }

  /** `Album.from_json`: the artwork first, then the url, the title and the release year; a falsy
      `release_year` is None and a truthy one goes through `int()`, whose ValueError on a
      non-numeric str propagates. */
  function AlbumFromJson(j: Json): (r: Result<Album>)
    ensures r.Ok? ==> Subscript(j, "title") == Ok(r.value.title)
                      && AlbumGetUrl(j) == Ok(r.value.url)
                      && FirstArtwork(j) == Ok(r.value.artwork)
    ensures r.Ok? ==> (exists year :: Subscript(j, "release_year") == Ok(year)
                                       && (r.value.releaseYear == None <==> !Truthy(year))
                                       && (Truthy(year) ==> ToInt(year) == Ok(r.value.releaseYear.value)))
    ensures FirstArtwork(j).Ok? && AlbumGetUrl(j).Ok? && j.Obj? && "title" in j.fields ==>
              ("release_year" in j.fields <==> r.Ok? || (r.Err? && r.error != KeyError))
    ensures r.Ok? <==> FirstArtwork(j).Ok? && AlbumGetUrl(j).Ok? && j.Obj? && "title" in j.fields
                       && "release_year" in j.fields
                       && (Truthy(j.fields["release_year"]) ==> ToInt(j.fields["release_year"]).Ok?)
  {
    var artwork :- FirstArtwork(j);
    var url :- AlbumGetUrl(j);
    var title :- Subscript(j, "title");
    var year :- Subscript(j, "release_year");
    var releaseYear :- if Truthy(year) then (var n :- ToInt(year); Ok(Some(n))) else Ok(None);
    Ok(Album(url, title, artwork, releaseYear))
  }

  // ---- Song ----

  /** The release the song's try block decodes: `release` when it is truthy, otherwise the
      first entry of `recording["releases"]`. */
  function ChooseRelease(j: Json): (r: Result<Json>)
    ensures forall rel :: Subscript(j, "release") == Ok(rel) && Truthy(rel) ==> r == Ok(rel)
  {
    var release :- Subscript(j, "release");
    if Truthy(release) then
      Ok(release)
    else
      var recording :- Subscript(j, "recording");
      var releases :- Subscript(recording, "releases");
      Index(releases, 0)
  }

  /** The album and the artists of a chosen release: `Album.from_json`, then every entry of its
      `artists` through `Artist.from_json`. */
  function ReleaseAt(release: Json): (r: Result<(Album, seq<Artist>)>)
    ensures r.Ok? <==> AlbumFromJson(release).Ok? && release.Obj? && "artists" in release.fields
                       && Decodable(release.fields["artists"], ArtistFromJson)
    ensures r.Ok? ==> AlbumFromJson(release) == Ok(r.value.0)
    ensures forall xs :: Subscript(release, "artists") == Ok(Arr(xs)) && r.Ok? ==>
              |r.value.1| == |xs| && forall i :: 0 <= i < |xs| ==> ArtistFromJson(xs[i]) == Ok(r.value.1[i])
  {
    var album :- AlbumFromJson(release);
    var artistsJson :- Subscript(release, "artists");
    var elements :- Iterate(artistsJson);
    var artists :- DecodeEach(elements, ArtistFromJson);
    Ok((album, artists))
  }

  /** The whole try block of `Song.from_json`. */
  function DecodeRelease(j: Json): Result<(Album, seq<Artist>)>
  {
    var release :- ChooseRelease(j);
    ReleaseAt(release)
  }

  /** The exceptions `Song.from_json` catches: `except (KeyError, IndexError, TypeError)`. */
  predicate Caught(e: PyError)
  {
    e == KeyError || e == IndexError || e == TypeError
  }

  /** `Song.from_json`: a release that decodes gives the album and its artists; one that raises a
      caught exception gives no album and no artists; any other exception propagates. Then the
      url by `Song.get_url`, and `recording["title"]` and `recording["duration"]` copied. */
  function DecodeSong(j: Json): (r: Result<Song>)
    ensures r.Ok? <==> (DecodeRelease(j).Ok? || Caught(DecodeRelease(j).error))
                       && SongGetUrl(j).Ok? && j.Obj? && "recording" in j.fields
                       && j.fields["recording"].Obj? && "title" in j.fields["recording"].fields
                       && "duration" in j.fields["recording"].fields
    ensures r.Ok? ==> (r.value.album.Some? <==> DecodeRelease(j).Ok?)
    ensures r.Ok? && r.value.album.Some? ==> DecodeRelease(j) == Ok((r.value.album.value, r.value.artists))
    ensures r.Ok? && r.value.album.None? ==> r.value.artists == [] && DecodeRelease(j).Err?
                                              && Caught(DecodeRelease(j).error)
    ensures DecodeRelease(j).Err? && !Caught(DecodeRelease(j).error) ==> r == Err(DecodeRelease(j).error)
    ensures r.Ok? ==> SongGetUrl(j) == Ok(r.value.url)
    ensures r.Ok? ==> (exists recording :: Subscript(j, "recording") == Ok(recording)
                                           && Subscript(recording, "title") == Ok(r.value.title)
                                           && Subscript(recording, "duration") == Ok(r.value.duration))
  {
    var release := DecodeRelease(j);
    if release.Err? && !Caught(release.error) then
      Err(release.error)
    else
      var album := if release.Ok? then Some(release.value.0) else None;
      var artists := if release.Ok? then release.value.1 else [];
      var url :- SongGetUrl(j);
      // `get_url` has already read `recording`.
      var recording := Subscript(j, "recording").value;
      var title :- Subscript(recording, "title");
      var duration :- Subscript(recording, "duration");
      Ok(Song(title, duration, artists, album, url))
  }

  /** The try block of `Song.from_json`, with its artists loop. */
  method TryRelease(j: Json) returns (r: Result<(Album, seq<Artist>)>)
    ensures r == DecodeRelease(j)
  {
    var release := ChooseRelease(j);
    if release.Err? {
      return Err(release.error);
    }
    var album := AlbumFromJson(release.value);
    if album.Err? {
      return Err(album.error);
    }
    var artistsJson := Subscript(release.value, "artists");
    if artistsJson.Err? {
      return Err(artistsJson.error);
    }
    var elements := Iterate(artistsJson.value);
    if elements.Err? {
      return Err(elements.error);
    }
    var xs := elements.value;
    var artists: seq<Artist> := [];
    var i := 0;
    while i < |xs|
      invariant 0 <= i <= |xs|
      invariant DecodeEach(xs[..i], ArtistFromJson) == Ok(artists)
    {
      DecodeEachStep(xs, i, ArtistFromJson);
      var artist := ArtistFromJson(xs[i]);
      if artist.Err? {
        DecodeEachStopsAtFailure(xs, i + 1, ArtistFromJson);
        return Err(artist.error);
      }
      artists := artists + [artist.value];
      i := i + 1;
    }
    assert xs[..i] == xs;
    return Ok((album.value, artists));
  }

  method SongFromJson(j: Json) returns (r: Result<Song>)
    ensures r == DecodeSong(j)
  {
    var release := TryRelease(j);
    var album: Option<Album>;
    var artists: seq<Artist>;
    if release.Ok? {
      album, artists := Some(release.value.0), release.value.1;
    } else if Caught(release.error) {
      album, artists := None, [];
    } else {
      return Err(release.error);
    }
    var url := SongGetUrl(j);
    if url.Err? {
      return Err(url.error);
    }
    // `get_url` has already read `recording`, so the lookup succeeds here.
    var recording := Subscript(j, "recording").value;
    var title := Subscript(recording, "title");
    if title.Err? {
      return Err(title.error);
    }
    var duration := Subscript(recording, "duration");
    if duration.Err? {
      return Err(duration.error);
    }
    return Ok(Song(title.value, duration.value, artists, album, url.value));
  }

  // ---- RadioSong ----

  /** `RadioSong.from_json`: the song first, then `played_time` (a non-str makes
      `datetime.fromisoformat` raise TypeError) and `service_id`. */
  function DecodeRadioSong(j: Json): (r: Result<RadioSong>)
    ensures r.Ok? <==> DecodeSong(j).Ok? && j.Obj? && "played_time" in j.fields
                       && j.fields["played_time"].Str? && "service_id" in j.fields
    ensures DecodeSong(j).Ok? && j.Obj? && "played_time" in j.fields && !j.fields["played_time"].Str? ==>
              r == Err(TypeError)
    ensures r.Ok? ==> DecodeSong(j) == Ok(r.value.song)
                      && Subscript(j, "played_time") == Ok(Str(r.value.playedTime))
                      && Subscript(j, "service_id") == Ok(r.value.channel)
    ensures DecodeSong(j).Err? ==> r == Err(DecodeSong(j).error)
  {
    var song :- DecodeSong(j);
    var playedTime :- Subscript(j, "played_time");
    var stamp :- if playedTime.Str? then Ok(playedTime.s) else Err(TypeError);
    var channel :- Subscript(j, "service_id");
    Ok(RadioSong(stamp, channel, song))
  }

  method RadioSongFromJson(j: Json) returns (r: Result<RadioSong>)
    ensures r == DecodeRadioSong(j)
  {
    var song := SongFromJson(j);
    if song.Err? {
      return Err(song.error);
    }
    var playedTime := Subscript(j, "played_time");
    if playedTime.Err? {
      return Err(playedTime.error);
    }
    if !playedTime.value.Str? {
      return Err(TypeError);
    }
    var channel := Subscript(j, "service_id");
    if channel.Err? {
      return Err(channel.error);
    }
    return Ok(RadioSong(playedTime.value.s, channel.value, song.value));
  }

  // ---- SearchResult ----

  /** `SearchResult.from_json`: every entry of `items` decoded, in order, then `total`,
      `offset` and `limit` copied. */
  function DecodeSearchResult(j: Json): (r: Result<SearchResult>)
    ensures r.Ok? <==> j.Obj? && "items" in j.fields && Decodable(j.fields["items"], DecodeRadioSong)
                       && "total" in j.fields && "offset" in j.fields && "limit" in j.fields
    ensures forall xs :: Subscript(j, "items") == Ok(Arr(xs)) && r.Ok? ==>
              |r.value.radioSongs| == |xs|
              && forall i :: 0 <= i < |xs| ==> DecodeRadioSong(xs[i]) == Ok(r.value.radioSongs[i])
    ensures forall xs, i :: Subscript(j, "items") == Ok(Arr(xs)) && 0 <= i < |xs| && DecodeRadioSong(xs[i]).Err?
              ==> r.Err?
    ensures r.Ok? ==> Subscript(j, "total") == Ok(r.value.total) && Subscript(j, "offset") == Ok(r.value.offset)
                      && Subscript(j, "limit") == Ok(r.value.limit)
  {
    var itemsJson :- Subscript(j, "items");
    var elements :- Iterate(itemsJson);
    var radioSongs :- DecodeEach(elements, DecodeRadioSong);
    var total :- Subscript(j, "total");
    var offset :- Subscript(j, "offset");
    var limit :- Subscript(j, "limit");
    Ok(SearchResult(total, offset, limit, radioSongs))
  }

  method SearchResultFromJson(j: Json) returns (r: Result<SearchResult>)
    ensures r == DecodeSearchResult(j)
  {
    var itemsJson := Subscript(j, "items");
    if itemsJson.Err? {
      return Err(itemsJson.error);
    }
    var elements := Iterate(itemsJson.value);
    if elements.Err? {
      return Err(elements.error);
    }
    var xs := elements.value;
    var radioSongs: seq<RadioSong> := [];
    var i := 0;
    while i < |xs|
      invariant 0 <= i <= |xs|
      invariant DecodeEach(xs[..i], DecodeRadioSong) == Ok(radioSongs)
    {
      DecodeEachStep(xs, i, DecodeRadioSong);
      var radioSong := RadioSongFromJson(xs[i]);
      if radioSong.Err? {
        DecodeEachStopsAtFailure(xs, i + 1, DecodeRadioSong);
        return Err(radioSong.error);
      }
      radioSongs := radioSongs + [radioSong.value];
      i := i + 1;
    }
    assert xs[..i] == xs;
    var total := Subscript(j, "total");
    if total.Err? {
      return Err(total.error);
    }
    var offset := Subscript(j, "offset");
    if offset.Err? {
      return Err(offset.error);
    }
    var limit := Subscript(j, "limit");
    if limit.Err? {
      return Err(limit.error);
    }
    return Ok(SearchResult(total.value, offset.value, limit.value, radioSongs));
  }

  // ---- Properties of the decoders ----

  /** A truthy `release` is the one decoded; `recording["releases"]` is not consulted. */
  lemma TruthyReleaseIsUsed(j: Json, release: Json)
    requires Subscript(j, "release") == Ok(release) && Truthy(release)
    ensures DecodeRelease(j) == ReleaseAt(release)
  {
  }

  /** A falsy `release` falls back on the first entry of `recording["releases"]`; an empty
      list there raises IndexError, which the song catches. */
  lemma FalsyReleaseFallsBack(j: Json, release: Json, recording: Json, releases: seq<Json>)
    requires Subscript(j, "release") == Ok(release) && !Truthy(release)
    requires Subscript(j, "recording") == Ok(recording) && Subscript(recording, "releases") == Ok(Arr(releases))
    ensures releases != [] ==> DecodeRelease(j) == ReleaseAt(releases[0])
    ensures releases == [] ==> DecodeRelease(j) == Err(IndexError)
    ensures releases == [] && DecodeSong(j).Ok? ==>
              DecodeSong(j).value.album == None && DecodeSong(j).value.artists == []
    ensures (releases == [] && SongGetUrl(j).Ok? && recording.Obj? && "title" in recording.fields
             && "duration" in recording.fields) ==> DecodeSong(j).Ok?
  {
  }

  /** A play without a `release` key raises KeyError inside the try block, which the song
      catches: it still decodes, with no album and no artists. */
  lemma MissingReleaseIsCaught(j: Json, recording: Json)
    requires j.Obj? && "release" !in j.fields
    requires Subscript(j, "recording") == Ok(recording) && recording.Obj?
    requires "title" in recording.fields && "duration" in recording.fields && SongGetUrl(j).Ok?
    ensures DecodeRelease(j) == Err(KeyError)
    ensures DecodeSong(j) == Ok(Song(recording.fields["title"], recording.fields["duration"], [], None,
                                     SongGetUrl(j).value))
  {
  }

  /** A truthy but malformed `release` does not fall back on `recording["releases"]`, whatever
      that holds: the song gets no album and no artists. */
  lemma MalformedReleaseDoesNotFallBack(j: Json, release: Json)
    requires Subscript(j, "release") == Ok(release) && Truthy(release)
    requires ReleaseAt(release).Err? && Caught(ReleaseAt(release).error)
    ensures DecodeSong(j).Ok? ==> DecodeSong(j).value.album == None && DecodeSong(j).value.artists == []
    ensures (SongGetUrl(j).Ok? && Subscript(j, "recording").Ok?
             && Subscript(Subscript(j, "recording").value, "title").Ok?
             && Subscript(Subscript(j, "recording").value, "duration").Ok?) ==> DecodeSong(j).Ok?
  {
    TruthyReleaseIsUsed(j, release);
  }

  /** Such a release: a truthy dict without `artwork`. */
  lemma ReleaseWithoutArtwork()
    ensures ReleaseAt(Obj(map["title" := Str("T")])) == Err(KeyError)
  {
    assert FirstArtwork(Obj(map["title" := Str("T")])) == Err(KeyError);
  }

  /** `int()` of a non-numeric `release_year` raises ValueError, which the song's except clause
      does not name: the whole song, and with it the page, fails. */
  lemma ValueErrorEscapes(j: Json, release: Json)
    requires Subscript(j, "release") == Ok(release) && Truthy(release)
    requires AlbumFromJson(release) == Err(ValueError)
    ensures DecodeSong(j) == Err(ValueError) && DecodeRadioSong(j) == Err(ValueError)
  {
  }

  /** The release of ValueErrorEscapes exists: a `release_year` of "abc". */
  lemma NonNumericReleaseYear()
    ensures AlbumFromJson(Obj(map["artwork" := Arr([]), "links" := Arr([]), "title" := Str("T"),
                                  "release_year" := Str("abc")])) == Err(ValueError)
  {
    assert !Decimal.IsDigit("abc"[0]);
    assert Decimal.ParseInt("abc") == None;
  }

  /** A song without `recording["title"]` or `recording["duration"]` fails, whatever its release. */
  lemma MissingTitleOrDurationFailsSong(j: Json, recording: Json)
    requires Subscript(j, "recording") == Ok(recording) && recording.Obj?
    requires "title" !in recording.fields || "duration" !in recording.fields
    ensures DecodeSong(j).Err? && DecodeRadioSong(j).Err?
  {
  }

  /** One failing item fails the whole page. */
  lemma MissingTitleFailsPage(page: Json, items: seq<Json>, i: nat, recording: Json)
    requires Subscript(page, "items") == Ok(Arr(items)) && i < |items|
    requires Subscript(items[i], "recording") == Ok(recording) && recording.Obj? && "title" !in recording.fields
    ensures DecodeSearchResult(page).Err?
  {
    MissingTitleOrDurationFailsSong(items[i], recording);
  }

  /** Every element decoder raises TypeError on a str, so iterating a non-empty dict (whose
      keys are strs) fails as `Iterate` says. */
  lemma DecodersRejectStr(s: string)
    ensures ArtworkSizeFromJson(Str(s)) == Err(TypeError)
    ensures ArtistFromJson(Str(s)) == Err(TypeError)
    ensures DecodeRadioSong(Str(s)) == Err(TypeError)
  {
  }
}
