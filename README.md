# ABC Radio wrapper, modelled in Dafny

The wrapper is a small client for the Australian Broadcasting Corporation's play-history
endpoint (`https://music.abcradio.net.au/api/v1/plays/search.json`). This project models three
parts of it:

- the query-string builder `ABCRadio.construct_query_string`;
- the client methods `ABCRadio.search` and `ABCRadio.continuous_search`. `continuous_search`
  pages through results by raising `offset` by `limit` while `offset + limit < total`;
- the `from_json` constructors. These turn a decoded response into `SearchResult`, `RadioSong`,
  `Song`, `Artist`, `Album`, `Artwork` and `ArtworkSize` objects, together with the `get_url`
  helpers and `ArtworkSize.aspect_ratio_float`.

Modules, one per file:

- `Wrappers` (`wrappers.dfy`) has `Option` for Python's None and `Result` for a value or the
  Python exception raised (`PyError`).
- `Decimal` (`decimal.dfy`) has decimal text: `str(int)`, the zero padding of `strftime`
  fields, and `int(str)`.
- `PyJson` (`pyjson.dfy`) has the values `Response.json()` produces. It also has the Python
  operations the decoders apply to them, each raising where Python raises: `v[key]`, `v[0]`,
  `len`, `for` iteration, truth testing, `int()`, and `+`/`<` on numbers.
- `Strings` (`strings.dfy`) has `str.join` and `str.split` for a one-character separator.
- `Query` (`query.dfy`) has `construct_query_string`, the `strftime` format it uses, and a
  parser for its output used only as a reference.
- `Entities` (`entities.dfy`) has the dataclasses and their decoders.
- `Client` (`client.dfy`) has `search`, `continuous_search` and the endpoint constants.

How the code is modelled:

- Code that builds a list in a loop is a method with a `while` loop, proved equal to a function
  of its input. This covers the `for` loops of `Artwork.from_json`, `Song.from_json` and
  `SearchResult.from_json`, and the paging loop of `continuous_search`.
- `construct_query_string` has no loop. It appends to a list under five separate conditions,
  and the method does the same five conditional appends. It is proved equal to the function
  `QueryString`.
- The other decoders are functions.
- A field that a constructor copies without conversion keeps its JSON value, because the
  dataclasses do not check types.
- The HTTP round trip is the parameter `fetch`. It maps the requested URL to the decoded
  response, or to `RequestError` when `requests.get` or `Response.json()` raises.
- `continuous_search` is modelled over the search it calls, the parameter `search`: a
  function from the keyword arguments to a page or an exception. The client's own is
  `Client.ClientSearch(fetch)`, which is `Client.SearchSpec` at every argument
  (`Client.ContinuousFirstRequest` ties the two together). The loop's `params["offset"] = offset`
  is `Client.SearchAtOffset`: the caller's arguments with `offset` replaced.

## Model

| member | source | states |
|---|---|---|
| Query.ConstructQueryString | abc_radio_wrapper/abc_radio_wrapper.py:57-89 | The method's result equals `QueryString(params)`: one `key=value` per supplied option, in order, joined by `&` behind a `?`. |
| Query.QueryStringEmptyIff | abc_radio_wrapper/abc_radio_wrapper.py:86-89 | The result is `""` exactly when no option is supplied. Otherwise it starts with `?`. |
| Query.EntriesOrdered | abc_radio_wrapper/abc_radio_wrapper.py:75-84 | The pairs come in the order from, to, station, offset, limit, so no key repeats. |
| Query.EntriesExactlySupplied | abc_radio_wrapper/abc_radio_wrapper.py:69-84 | A pair `(k, v)` is emitted exactly when option `k` is supplied and its text is `v`. |
| Query.StampDate | abc_radio_wrapper/abc_radio_wrapper.py:76 | The text is 27 characters long. `%Y`, `%m` and `%d` sit at positions 0-3, 5-6 and 8-9, with `-`, `-` and `T` after them. |
| Query.StampTime | abc_radio_wrapper/abc_radio_wrapper.py:76 | `%H` and `%M` sit at positions 11-12 and 14-15, each followed by `:`. |
| Query.StampSeconds | abc_radio_wrapper/abc_radio_wrapper.py:76 | `%S` and `%f` sit at positions 17-18 and 20-25, separated by `.` and ended by `Z`. |
| Query.StrftimeRoundTrip | abc_radio_wrapper/abc_radio_wrapper.py:76 | Each field of `%Y-%m-%dT%H:%M:%S.%fZ` reads back from its fixed position as the datetime's wall-clock value. |
| Query.StrftimeIgnoresOffset | abc_radio_wrapper/abc_radio_wrapper.py:76-78 | Two datetimes give the same text exactly when their wall clocks agree. There is no UTC conversion, and `Z` is a literal. |
| Query.QueryRoundTrip | abc_radio_wrapper/abc_radio_wrapper.py:75-87 | If the station has no `&`, splitting the result on `&` and `=` gives back exactly the emitted pairs, in order. |
| Query.AmpersandInStationBreaksQuery | abc_radio_wrapper/abc_radio_wrapper.py:80 | The station is not escaped, so a station `a&b` yields a query that no longer parses as the builder's pairs. |
| Query.DocstringExample | abc_radio_wrapper/abc_radio_wrapper.py:64-65 | A from-datetime of 2020-04-30 03:00:00 with station `triplej`, offset 0 and limit 10 gives `?from=2020-04-30T03:00:00.000000Z&station=triplej&offset=0&limit=10`. |
| Decimal.IntToStringRoundTrip | abc_radio_wrapper/abc_radio_wrapper.py:82-84 | `int(str(i)) == i` for the offset and limit text. |
| Decimal.ZeroPad | abc_radio_wrapper/abc_radio_wrapper.py:76 | A strftime field is exactly `width` digits and denotes `n`. |
| PyJson.Subscript | abc_radio_wrapper/abc_radio_wrapper.py:423-426 | `v[key]` succeeds exactly on a dict holding the key and gives its value. A dict without the key raises KeyError; any other value raises TypeError. |
| PyJson.Iterate | abc_radio_wrapper/abc_radio_wrapper.py:402 | A `for` loop over a list visits its elements in order, and over a str visits its one-character strs. Either way the k-th item is `v[k]`. An empty dict gives no items and a non-empty one TypeError. None, ints and bools raise TypeError. |
| PyJson.ToInt | abc_radio_wrapper/abc_radio_wrapper.py:371 | `int()` keeps an int and maps a bool to 0 or 1. A str succeeds exactly when it is an integer literal, and then gives the value that literal denotes (ValueError otherwise). None, lists and dicts raise TypeError. |
| PyJson.ToIntOfText | abc_radio_wrapper/abc_radio_wrapper.py:371 | `int()` of an int's decimal text gives back that int. |
| PyJson.FalsyValues | abc_radio_wrapper/abc_radio_wrapper.py:275 | Truth testing is false exactly on None, False, 0, `""`, `[]` and `{}`. |
| Entities.DecodeEach | abc_radio_wrapper/abc_radio_wrapper.py:224-226 | A decode-and-append loop succeeds exactly when every element decodes. It keeps length and order, and fails with the first failing element's exception. |
| Entities.DecodeEachStopsAtFailure | abc_radio_wrapper/abc_radio_wrapper.py:224-226 | After an element raises, the rest of the list is not decoded. |
| Entities.ArtworkSizeFromJson | abc_radio_wrapper/abc_radio_wrapper.py:421-427 | Succeeds exactly on a dict with `url`, `width`, `height` and `aspect_ratio`, and copies those four values. |
| Entities.AspectRatioParts | abc_radio_wrapper/abc_radio_wrapper.py:430-432 | A non-str raises AttributeError, and a split into other than two pieces raises ValueError. With two pieces, it succeeds exactly when both parse and the height is non-zero, giving the two numbers. A piece that does not parse is ValueError, and a zero height is ZeroDivisionError. |
| Entities.AspectRatioRoundTrip | abc_radio_wrapper/abc_radio_wrapper.py:431-432 | An aspect ratio written `"WxH"`, with H > 0, splits and parses back to `(W, H)`. |
| Entities.SplitRatio | abc_radio_wrapper/abc_radio_wrapper.py:431 | Two digit strings joined by `x` split on `x` into exactly those two pieces. |
| Entities.DecodeArtwork | abc_radio_wrapper/abc_radio_wrapper.py:399-404 | Succeeds exactly when `sizes`, `url` and `type` are present and every entry of `sizes` decodes. `sizes` is decoded entry by entry, keeping count and order. `url` and `type` are copied. |
| Entities.ArtworkFromJson | abc_radio_wrapper/abc_radio_wrapper.py:399-404 | The method's loop gives exactly `DecodeArtwork`. |
| Entities.FirstLinkUrl | abc_radio_wrapper/abc_radio_wrapper.py:379-382 | For a list of links: None when empty, else the first entry's `url`. An empty dict gives None; a non-empty dict raises KeyError; None, ints and bools raise TypeError. |
| Entities.AlbumGetUrl | abc_radio_wrapper/abc_radio_wrapper.py:377-382 | A missing `links` raises KeyError. A list of links gives None when empty, else the first entry's `url`. |
| Entities.SongGetUrl | abc_radio_wrapper/abc_radio_wrapper.py:295-305 | A missing `recording` or `recording["links"]` raises KeyError, and a non-dict raises TypeError. A list of links gives None when empty, else the first entry's `url`. |
| Entities.ArtistFromJson | abc_radio_wrapper/abc_radio_wrapper.py:333-344 | `is_australian` is `bool()` of the field, and a missing one is KeyError. It succeeds exactly when `is_australian`, `links` and `name` are present and the link lookup succeeds. `name` is copied. |
| Entities.LinkRuleShared | abc_radio_wrapper/abc_radio_wrapper.py:302-303 | The album's, the song's and the artist's URLs all equal `FirstLinkUrl` of their own `links`. |
| Entities.FirstArtwork | abc_radio_wrapper/abc_radio_wrapper.py:363-366 | An empty `artwork` list gives None. Otherwise the result is the decoded first entry, whose errors propagate. A missing key is KeyError. |
| Entities.AlbumFromJson | abc_radio_wrapper/abc_radio_wrapper.py:362-375 | Succeeds exactly when the artwork and the URL succeed, `title` and `release_year` are present, and a truthy `release_year` passes `int()`. The artwork comes from the first entry and the title is copied. `release_year` is None exactly when it is falsy, else `int()` of it. A missing `release_year` is KeyError. |
| Entities.ChooseRelease | abc_radio_wrapper/abc_radio_wrapper.py:273-277 | A truthy `release` is the one chosen. |
| Entities.ReleaseAt | abc_radio_wrapper/abc_radio_wrapper.py:278-281 | Succeeds exactly when `Album.from_json` succeeds and every entry of `artists` decodes. The album is `Album.from_json` of the chosen release. Its artists decode entry by entry, keeping count and order. |
| Entities.DecodeSong | abc_radio_wrapper/abc_radio_wrapper.py:270-293 | Succeeds exactly when the try block succeeds or raises a caught exception, and the URL, `recording["title"]` and `recording["duration"]` are all readable. The album is present exactly when the release decodes; then it comes with that release's artists. A caught exception gives no album and no artists. Any other exception propagates. |
| Entities.TryRelease | abc_radio_wrapper/abc_radio_wrapper.py:270-281 | The method's artists loop gives exactly the try block's value (`DecodeRelease`). |
| Entities.SongFromJson | abc_radio_wrapper/abc_radio_wrapper.py:249-293 | The method gives exactly `DecodeSong`. |
| Entities.MissingReleaseIsCaught | abc_radio_wrapper/abc_radio_wrapper.py:270-293 | A play without `release` raises KeyError in the try block. The song still decodes, with no album and no artists, from the recording's title and duration. |
| Entities.TruthyReleaseIsUsed | abc_radio_wrapper/abc_radio_wrapper.py:273-275 | A truthy `release` is decoded, and `recording["releases"]` is not consulted. |
| Entities.FalsyReleaseFallsBack | abc_radio_wrapper/abc_radio_wrapper.py:273-284 | A falsy `release` decodes `recording["releases"][0]`. An empty list there is a caught IndexError, so the song still decodes when its URL, title and duration do, with no album and no artists. |
| Entities.MalformedReleaseDoesNotFallBack | abc_radio_wrapper/abc_radio_wrapper.py:273-284 | A truthy release that raises a caught exception gives no album and no artists, whatever `recording["releases"]` holds. The song itself still decodes. |
| Entities.ReleaseWithoutArtwork | abc_radio_wrapper/abc_radio_wrapper.py:364 | A release without `artwork` raises KeyError, one of the caught exceptions. |
| Entities.ValueErrorEscapes | abc_radio_wrapper/abc_radio_wrapper.py:282 | A ValueError from `int(release_year)` is not caught, so it fails the song and the radio song. |
| Entities.NonNumericReleaseYear | abc_radio_wrapper/abc_radio_wrapper.py:371-373 | A `release_year` of `"abc"` makes `Album.from_json` raise ValueError. |
| Entities.MissingTitleOrDurationFailsSong | abc_radio_wrapper/abc_radio_wrapper.py:288-289 | A recording without `title` or `duration` fails the song, whatever its release. |
| Entities.MissingTitleFailsPage | abc_radio_wrapper/abc_radio_wrapper.py:225-226 | One item whose recording lacks `title` fails the whole page. |
| Entities.DecodeRadioSong | abc_radio_wrapper/abc_radio_wrapper.py:198-203 | Succeeds exactly when the song decodes, `played_time` is a str and `service_id` is present. The song's failure is the radio song's failure, and a non-str `played_time` is TypeError. `service_id` is copied as the channel. |
| Entities.RadioSongFromJson | abc_radio_wrapper/abc_radio_wrapper.py:178-203 | The method gives exactly `DecodeRadioSong`. |
| Entities.DecodeSearchResult | abc_radio_wrapper/abc_radio_wrapper.py:218-232 | Succeeds exactly when `items` is iterable, every item decodes, and `total`, `offset` and `limit` are present. The items decode one by one, keeping count and order, and any failing item fails the page. `total`, `offset` and `limit` are copied. |
| Entities.SearchResultFromJson | abc_radio_wrapper/abc_radio_wrapper.py:218-232 | The method's loop gives exactly `DecodeSearchResult`. |
| Entities.DecodersRejectStr | abc_radio_wrapper/abc_radio_wrapper.py:225 | The artist, artwork-size and radio-song decoders raise TypeError on a str. So a loop over a non-empty dict, which yields str keys, fails. |
| Client.Search | abc_radio_wrapper/abc_radio_wrapper.py:38-54 | The method requests the base URL plus the query string and decodes the response; its result equals `SearchSpec`. |
| Client.SearchWithoutParameters | abc_radio_wrapper/abc_radio_wrapper.py:48 | With no option supplied, the bare endpoint is requested. |
| Client.FollowOffsets | abc_radio_wrapper/abc_radio_wrapper.py:116-118 | There are no follow-up offsets exactly when the first `offset + limit` reaches `total`. |
| Client.FollowOffsetsAt | abc_radio_wrapper/abc_radio_wrapper.py:116-118 | The k-th follow-up is `offset + (k + 1) * limit`, and every follow-up is below `total`. |
| Client.FollowOffsetsCount | abc_radio_wrapper/abc_radio_wrapper.py:116-118 | The number `n` of follow-ups satisfies `n * limit < total - offset <= (n + 1) * limit`. |
| Client.NonPositiveLimitNeverEnds | abc_radio_wrapper/abc_radio_wrapper.py:116 | With `limit <= 0` and a first `offset + limit < total`, the loop condition holds at every step. |
| Client.SearchAll | abc_radio_wrapper/abc_radio_wrapper.py:116-119 | Pages come in offset order, each the search at its offset. The run stops at the first search that raises. |
| Client.SearchAllSnoc | abc_radio_wrapper/abc_radio_wrapper.py:116-119 | One more turn of the loop makes one more search, at the next offset, unless an earlier search raised. Its page is appended, or its exception ends the run. |
| Client.SearchAllStopsAtFailure | abc_radio_wrapper/abc_radio_wrapper.py:119 | After a search raises, later offsets are never requested. |
| Client.Paging | abc_radio_wrapper/abc_radio_wrapper.py:112-119 | The first page is yielded first. Only it supplies `total`, `offset` and `limit`, and when any of them is not a number the run ends with TypeError after that page. An `Unbounded` run has only the first page. |
| Client.ContinuousSpec | abc_radio_wrapper/abc_radio_wrapper.py:111-112 | Nothing is yielded exactly when the first search, made with the caller's arguments, raises, and that exception ends the run. Otherwise the first page leads. |
| Client.ContinuousSearch | abc_radio_wrapper/abc_radio_wrapper.py:91-119 | For any search function, the method yields exactly `ContinuousSpec`: the first page, then the pages at the following offsets. |
| Client.FollowPages | abc_radio_wrapper/abc_radio_wrapper.py:116-119 | The method's loop performs exactly the searches at `FollowOffsets`, up to the first that raises. |
| Client.SinglePage | abc_radio_wrapper/abc_radio_wrapper.py:113-116 | When the first `offset + limit >= total`, exactly one search is made. |
| Client.FollowUpPages | abc_radio_wrapper/abc_radio_wrapper.py:116-119 | Page k is the search at `offset + k * limit`, below `total`. |
| Client.ExhaustedCount | abc_radio_wrapper/abc_radio_wrapper.py:116-119 | A normally ended run makes one search more than there are follow-up offsets. |
| Client.FifteenSearches | abc_radio_wrapper/abc_radio_wrapper.py:111-119 | With total 142, offset 0 and limit 10, and every search succeeding, exactly 15 searches are made, the last at offset 140. |
| Client.SearchAllSucceeds | abc_radio_wrapper/abc_radio_wrapper.py:116-119 | When every search succeeds, the run reaches its last offset. |
| Client.ContinuousFirstRequest | abc_radio_wrapper/abc_radio_wrapper.py:111-112 | For the client's own search, the first yielded page is the decoded response to the base URL plus the caller's query string. |
| Client.UnboundedNeverEnds | abc_radio_wrapper/abc_radio_wrapper.py:116 | `Unbounded` is reported exactly when `limit <= 0` and the first `offset + limit < total`. In that case the loop condition never fails. |

## Left out

- The network. `requests.get` and `Response.json()` become the `fetch` parameter, a fixed
  function of the URL, so a server whose answers change between requests is not modelled.
- `ABCRadio.__init__` and `available_stations`. These are kept as constants
  (`Client.BaseUrl`, `Client.AvailableStations`), with no split of the comma-separated text.
- `ABCRadio.search`'s bookkeeping. The assignments to `latest_offset` and
  `latest_search_parameters` have no effect on any result.
- Client.ContinuousSearch: the generator's laziness. The model collects every page the
  generator would yield.
- Client.ContinuousSearch: the run with a non-positive step. When `limit <= 0` and the first
  `offset + limit < total`, the source keeps searching at `offset + limit`,
  `offset + 2 * limit`, and so on. It yields each page until one search raises, and goes on for
  ever if none does. The model stops after the first page with `Unbounded`, so it drops those
  pages and that exception. `UnboundedNeverEnds` proves the loop condition never fails.
- Client.Paging: `total`, `offset` and `limit` are read only when they are ints or bools. Any
  other value is given as TypeError. That matches Python for None and dicts. It does not match
  when all three are strs or all three are lists: Python then concatenates with `+` and compares
  with `<`, and the loop goes on.
- Floats: the JSON values modelled have no floats. A float `total`, `offset`, `limit` or
  `release_year` is outside the model.
- Entities.DecodeRadioSong: `datetime.fromisoformat` is not modelled. `played_time` is kept
  as its str. A non-str raises TypeError as in Python, but a malformed str is not rejected.
- Entities.AspectRatioParts: the float division of `aspect_ratio_float` is left out. The
  model returns the two integers it divides.
- PyJson.ToInt: Python's `int()` also accepts surrounding whitespace, underscores between
  digits and non-ASCII digits. The model accepts only an optional sign followed by ASCII
  digits, and floats in JSON are not modelled.
- PyJson.Iterate: iterating a non-empty dict is given directly as TypeError. Python yields
  the str keys, and every element decoder then raises TypeError on a str
  (`Entities.DecodersRejectStr`).
- Query.Strftime: `%Y` is padded to four digits, as Python documents. The C library on some
  platforms prints years below 1000 without padding.
- Query.ConstructQueryString: keyword arguments other than the five options are ignored, as
  the source ignores them. The `pop` calls work on the call's own copy of the keyword
  arguments and change nothing the caller sees.
- The `is_australian` field is typed `Optional[bool]` but always set to `bool(...)`.
  The model keeps a plain `bool`, as the code does.
