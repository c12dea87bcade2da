/** `ABCRadio.construct_query_string`: the search options, rendered as the query part of the
    search URL. */
module Query {
  import opened Wrappers
  import opened Decimal
  import opened Strings

  /** A Python `datetime`: its wall-clock fields and, when it is timezone-aware, its UTC offset
      in minutes. */
  datatype Moment = Moment(year: int, month: int, day: int, hour: int, minute: int, second: int,
                           microsecond: int, utcOffsetMinutes: Option<int>)
  {
    /** The ranges `datetime` enforces on construction. */
    predicate Valid()
    {
      && 1 <= year <= 9999 && 1 <= month <= 12 && 1 <= day <= DaysInMonth(year, month)
      && 0 <= hour < 24 && 0 <= minute < 60 && 0 <= second < 60 && 0 <= microsecond < 1000000
      && (utcOffsetMinutes.Some? ==> -1440 < utcOffsetMinutes.value < 1440)
    }
  }

  function DaysInMonth(year: int, month: int): int
  {
    if month == 2 then
      (if year % 4 == 0 && (year % 100 != 0 || year % 400 == 0) then 29 else 28)
    else if month == 4 || month == 6 || month == 9 || month == 11 then 30
    else 31
  }

  type DateTime = m: Moment | m.Valid() witness Moment(1, 1, 1, 0, 0, 0, 0, None)

  /** The fields `strftime("%Y-%m-%dT%H:%M:%S.%fZ")` reads: the wall clock, not the offset. */
  datatype Clock = Clock(year: int, month: int, day: int, hour: int, minute: int, second: int,
                         microsecond: int)

  function WallClock(t: DateTime): Clock
  {
    Clock(t.year, t.month, t.day, t.hour, t.minute, t.second, t.microsecond)
  }

  /** `t.strftime("%Y-%m-%dT%H:%M:%S.%fZ")`: zero-padded fields and a literal `Z`, whatever
      the timezone of `t`. */
  function Strftime(t: DateTime): string
  {
    DatePart(t) + "T" + TimePart(t) + ":" + SecondsPart(t) + "Z"
  }

  /** `%Y-%m-%d` */
  function DatePart(t: DateTime): string
  {
    ZeroPad(t.year, 4) + "-" + ZeroPad(t.month, 2) + "-" + ZeroPad(t.day, 2)
  }

  /** `%H:%M` */
  function TimePart(t: DateTime): string
  {
    ZeroPad(t.hour, 2) + ":" + ZeroPad(t.minute, 2)
  }

  /** `%S.%f` */
  function SecondsPart(t: DateTime): string
  {
    ZeroPad(t.second, 2) + "." + ZeroPad(t.microsecond, 6)
  }

  /** Reads a timestamp in the layout Strftime writes, as a reference for what it wrote. */
  function ParseStamp(s: string): Option<Clock>
  {
    if && |s| == 27
       && s[4] == '-' && s[7] == '-' && s[10] == 'T' && s[13] == ':' && s[16] == ':'
       && s[19] == '.' && s[26] == 'Z'
       && AllDigits(s[0..4]) && AllDigits(s[5..7]) && AllDigits(s[8..10])
       && AllDigits(s[11..13]) && AllDigits(s[14..16]) && AllDigits(s[17..19])
       && AllDigits(s[20..26])
    then
      Some(Clock(DigitsValue(s[0..4]), DigitsValue(s[5..7]), DigitsValue(s[8..10]),
                 DigitsValue(s[11..13]), DigitsValue(s[14..16]), DigitsValue(s[17..19]),
                 DigitsValue(s[20..26])))
    else
      None
  }

  /** The date fields of the text, at their fixed positions. */
  lemma StampDate(t: DateTime)
    ensures |Strftime(t)| == 27
    ensures Strftime(t)[0..4] == ZeroPad(t.year, 4)
    ensures Strftime(t)[5..7] == ZeroPad(t.month, 2)
    ensures Strftime(t)[8..10] == ZeroPad(t.day, 2)
    ensures Strftime(t)[4] == '-' && Strftime(t)[7] == '-' && Strftime(t)[10] == 'T'
  {
    var date := DatePart(t);
    assert date[0..4] == ZeroPad(t.year, 4) && date[5..7] == ZeroPad(t.month, 2);
    assert date[8..10] == ZeroPad(t.day, 2);
    assert date[4] == '-' && date[7] == '-';
    var s := Strftime(t);
    assert s[..10] == date && s[10] == 'T';
  }

  /** The hour and the minute, at their fixed positions. */
  lemma StampTime(t: DateTime)
    ensures |Strftime(t)| == 27
    ensures Strftime(t)[11..13] == ZeroPad(t.hour, 2)
    ensures Strftime(t)[14..16] == ZeroPad(t.minute, 2)
    ensures Strftime(t)[13] == ':' && Strftime(t)[16] == ':'
  {
    var time := TimePart(t);
    assert time[0..2] == ZeroPad(t.hour, 2) && time[3..5] == ZeroPad(t.minute, 2);
    assert time[2] == ':';
    var s := Strftime(t);
    assert s[11..16] == time && s[16] == ':';
  }

  /** The second and the microsecond, at their fixed positions. */
  lemma StampSeconds(t: DateTime)
    ensures |Strftime(t)| == 27
    ensures Strftime(t)[17..19] == ZeroPad(t.second, 2)
    ensures Strftime(t)[20..26] == ZeroPad(t.microsecond, 6)
    ensures Strftime(t)[19] == '.' && Strftime(t)[26] == 'Z'
  {
    var seconds := SecondsPart(t);
    assert seconds[0..2] == ZeroPad(t.second, 2) && seconds[3..9] == ZeroPad(t.microsecond, 6);
    assert seconds[2] == '.';
    var s := Strftime(t);
    assert s[17..26] == seconds && s[26] == 'Z';
  }

  /** Every field of the timestamp can be read back from the text at its fixed position. */
  lemma StrftimeRoundTrip(t: DateTime)
    ensures ParseStamp(Strftime(t)) == Some(WallClock(t))
  {
    StampDate(t);
    StampTime(t);
    StampSeconds(t);
  }

  /** No timezone conversion: two datetimes give the same text exactly when their wall clocks
      agree, whatever their UTC offsets. */
  lemma StrftimeIgnoresOffset(t1: DateTime, t2: DateTime)
    ensures Strftime(t1) == Strftime(t2) <==> WallClock(t1) == WallClock(t2)
  {
    StrftimeRoundTrip(t1);
    StrftimeRoundTrip(t2);
  }

  /** The options `construct_query_string` reads (`from_`, `to`, `station`, `offset`, `limit`),
      each absent or supplied. */
  datatype Params = Params(fromTime: Option<DateTime>, toTime: Option<DateTime>,
                           station: Option<string>, offset: Option<int>, limit: Option<int>)

  predicate NoneSupplied(p: Params)
  {
    p.fromTime.None? && p.toTime.None? && p.station.None? && p.offset.None? && p.limit.None?
  }

  /** The five query keys, in the order the builder emits them. */
  datatype Key = From | To | Station | Offset | Limit

  /** The key as it appears on the wire: the option `from_` is sent as `from`. */
  function Name(k: Key): string
  {
    match k
    case From => "from"
    case To => "to"
    case Station => "station"
    case Offset => "offset"
    case Limit => "limit"
  }

  function Rank(k: Key): nat
  {
    match k
    case From => 0
    case To => 1
    case Station => 2
    case Offset => 3
    case Limit => 4
  }

  /** The text the option for `k` renders to when it is supplied: `strftime` for the two
      datetimes, the string itself for the station, `str()` for the two integers. */
  function Supplied(p: Params, k: Key): Option<string>
  {
    match k
    case From => if p.fromTime.Some? then Some(Strftime(p.fromTime.value)) else None
    case To => if p.toTime.Some? then Some(Strftime(p.toTime.value)) else None
    case Station => if p.station.Some? then Some(p.station.value) else None
    case Offset => if p.offset.Some? then Some(IntToString(p.offset.value)) else None
    case Limit => if p.limit.Some? then Some(IntToString(p.limit.value)) else None
  }

  function Pick(p: Params, k: Key): seq<(Key, string)>
  {
    if Supplied(p, k).Some? then [(k, Supplied(p, k).value)] else []
  }

  /** The pairs the builder emits: the supplied options, in the order from, to, station,
      offset, limit. */
  function Entries(p: Params): seq<(Key, string)>
  {
    Pick(p, From) + Pick(p, To) + Pick(p, Station) + Pick(p, Offset) + Pick(p, Limit)
  }

  function Render(e: (Key, string)): string
  {
    Name(e.0) + "=" + e.1
  }

  function RenderAll(es: seq<(Key, string)>): seq<string>
  {
    if es == [] then [] else [Render(es[0])] + RenderAll(es[1..])
  }

  lemma {:induction false} RenderAllAppend(a: seq<(Key, string)>, b: seq<(Key, string)>)
    ensures RenderAll(a + b) == RenderAll(a) + RenderAll(b)
  {
    if a != [] {
      var head := [Render(a[0])];
      calc {
        RenderAll(a + b);
      == { assert (a + b)[0] == a[0] && (a + b)[1..] == a[1..] + b; }
        head + RenderAll(a[1..] + b);
      == { RenderAllAppend(a[1..], b); }
        head + (RenderAll(a[1..]) + RenderAll(b));
      ==
        (head + RenderAll(a[1..])) + RenderAll(b);
      }
    } else {
      assert a + b == b;
    }
  }

  /** The query suffix for `p`: empty when nothing is supplied, otherwise `?` followed by the
      `key=value` pairs joined with `&`. */
  function QueryString(p: Params): string
  {
    var es := Entries(p);
    if |es| >= 1 then "?" + Join(RenderAll(es), '&') else ""
  }

  /** `construct_query_string`: appends one `key=value` string per supplied option, in the
      order from, to, station, offset, limit, then joins them behind a `?`. */
  method ConstructQueryString(params: Params) returns (query: string)
    ensures query == QueryString(params)
  {
    ghost var emitted: seq<(Key, string)> := [];
    var paramsList: seq<string> := [];
    assert emitted + Pick(params, From) == Pick(params, From);
    if params.fromTime.Some? {
      paramsList := paramsList + ["from=" + Strftime(params.fromTime.value)];
    }
    assert Name(From) + "=" == "from=";
    EmitStep(emitted, params, From);
    emitted := emitted + Pick(params, From);
    assert paramsList == RenderAll(emitted);
    if params.toTime.Some? {
      paramsList := paramsList + ["to=" + Strftime(params.toTime.value)];
    }
    assert Name(To) + "=" == "to=";
    EmitStep(emitted, params, To);
    emitted := emitted + Pick(params, To);
    assert paramsList == RenderAll(emitted);
    if params.station.Some? {
      paramsList := paramsList + ["station=" + params.station.value];
    }
    assert Name(Station) + "=" == "station=";
    EmitStep(emitted, params, Station);
    emitted := emitted + Pick(params, Station);
    assert paramsList == RenderAll(emitted);
    if params.offset.Some? {
      paramsList := paramsList + ["offset=" + IntToString(params.offset.value)];
    }
    assert Name(Offset) + "=" == "offset=";
    EmitStep(emitted, params, Offset);
    emitted := emitted + Pick(params, Offset);
    assert paramsList == RenderAll(emitted);
    if params.limit.Some? {
      paramsList := paramsList + ["limit=" + IntToString(params.limit.value)];
    }
    assert Name(Limit) + "=" == "limit=";
    EmitStep(emitted, params, Limit);
    emitted := emitted + Pick(params, Limit);
    assert paramsList == RenderAll(emitted);
    if |paramsList| >= 1 {
      query := "?" + Join(paramsList, '&');
    } else {
      query := "";
    }
  }

  /** Appending the pair for `k` appends the source's `"<key>=" + value` string. */
  lemma EmitStep(emitted: seq<(Key, string)>, p: Params, k: Key)
    ensures RenderAll(emitted + Pick(p, k))
         == RenderAll(emitted)
            + if Supplied(p, k).Some? then [Name(k) + "=" + Supplied(p, k).value] else []
  {
    RenderAllAppend(emitted, Pick(p, k));
    if Supplied(p, k).Some? {
      assert RenderAll(Pick(p, k)) == [Render(Pick(p, k)[0])] + RenderAll([]);
    }
  }

  /** With no option supplied the suffix is empty, with no `?`; otherwise it starts with `?`. */
  lemma QueryStringEmptyIff(p: Params)
    ensures QueryString(p) == "" <==> NoneSupplied(p)
    ensures !NoneSupplied(p) ==> QueryString(p)[0] == '?'
  {
  }

  predicate RanksIncrease(es: seq<(Key, string)>)
  {
    forall i, j :: 0 <= i < j < |es| ==> Rank(es[i].0) < Rank(es[j].0)
  }

  lemma RanksIncreaseAppend(a: seq<(Key, string)>, p: Params, k: Key)
    requires RanksIncrease(a)
    requires forall i :: 0 <= i < |a| ==> Rank(a[i].0) < Rank(k)
    ensures RanksIncrease(a + Pick(p, k))
    ensures forall i :: 0 <= i < |a + Pick(p, k)| ==> Rank((a + Pick(p, k))[i].0) <= Rank(k)
  {
  }

  lemma InPick(p: Params, k: Key, k': Key, v: string)
    ensures (k', v) in Pick(p, k) <==> k' == k && Supplied(p, k) == Some(v)
  {
  }

  /** The pairs follow the order from, to, station, offset, limit, so no key appears twice. */
  lemma EntriesOrdered(p: Params)
    ensures RanksIncrease(Entries(p))
  {
    var a := Pick(p, From);
    RanksIncreaseAppend(a, p, To);
    a := a + Pick(p, To);
    RanksIncreaseAppend(a, p, Station);
    a := a + Pick(p, Station);
    RanksIncreaseAppend(a, p, Offset);
    a := a + Pick(p, Offset);
    RanksIncreaseAppend(a, p, Limit);
    a := a + Pick(p, Limit);
    assert a == Entries(p);
  }

  /** A pair is present exactly when its option is supplied, and carries that option's text. */
  lemma EntriesExactlySupplied(p: Params)
    ensures forall k, v :: (k, v) in Entries(p) <==> Supplied(p, k) == Some(v)
  {
    forall k, v ensures (k, v) in Entries(p) <==> Supplied(p, k) == Some(v) {
      InPick(p, From, k, v);
      InPick(p, To, k, v);
      InPick(p, Station, k, v);
      InPick(p, Offset, k, v);
      InPick(p, Limit, k, v);
    }
  }

  /** Reads `key=value` at the first `=`; a piece without `=` is all key. */
  function ParsePair(s: string): (string, string)
  {
    if s == [] then ("", "")
    else if s[0] == '=' then ("", s[1..])
    else
      var kv := ParsePair(s[1..]);
      ([s[0]] + kv.0, kv.1)
  }

  function KeyOf(name: string): Option<Key>
  {
    if name == "from" then Some(From)
    else if name == "to" then Some(To)
    else if name == "station" then Some(Station)
    else if name == "offset" then Some(Offset)
    else if name == "limit" then Some(Limit)
    else None
  }

  function ParsePairs(parts: seq<string>): Option<seq<(Key, string)>>
  {
    if parts == [] then Some([])
    else
      var kv := ParsePair(parts[0]);
      match (KeyOf(kv.0), ParsePairs(parts[1..]))
      case (Some(k), Some(rest)) => Some([(k, kv.1)] + rest)
      case _ => None
  }

  /** Reads a query suffix back into its pairs, as a reference for what the builder wrote;
      `None` for text that is not such a suffix. */
  function ParseQuery(q: string): Option<seq<(Key, string)>>
  {
    if q == "" then Some([])
    else if q[0] == '?' then ParsePairs(Split(q[1..], '&'))
    else None
  }

  lemma {:induction false} ParsePairAtEquals(k: string, v: string)
    requires '=' !in k
    ensures ParsePair(k + "=" + v) == (k, v)
  {
    if k == [] {
      assert k + "=" + v == "=" + v;
      assert ("=" + v)[1..] == v;
    } else {
      ParsePairAtEquals(k[1..], v);
      assert (k + "=" + v)[1..] == k[1..] + "=" + v;
      assert [k[0]] + k[1..] == k;
    }
  }

  lemma {:induction false} ParsePairsRenderAll(es: seq<(Key, string)>)
    ensures ParsePairs(RenderAll(es)) == Some(es)
  {
    if es != [] {
      var k := es[0].0;
      assert KeyOf(Name(k)) == Some(k);
      ParsePairAtEquals(Name(k), es[0].1);
      ParsePairsRenderAll(es[1..]);
      assert RenderAll(es)[1..] == RenderAll(es[1..]);
      assert [es[0]] + es[1..] == es;
    }
  }

  lemma NoAmpersandInStrftime(t: DateTime)
    ensures '&' !in Strftime(t)
  {
  }

  lemma NoAmpersandInInt(i: int)
    ensures '&' !in IntToString(i)
  {
  }

  lemma {:induction false} NoAmpersandRendered(es: seq<(Key, string)>)
    requires forall i :: 0 <= i < |es| ==> '&' !in es[i].1
    ensures forall i :: 0 <= i < |RenderAll(es)| ==> '&' !in RenderAll(es)[i]
    ensures |RenderAll(es)| == |es|
  {
    if es != [] {
      NoAmpersandRendered(es[1..]);
      assert '&' !in Name(es[0].0);
    }
  }

  /** Reading the suffix back gives exactly the supplied pairs, in order, provided the station
      name has no `&` (the builder does no URL escaping). */
  lemma QueryRoundTrip(p: Params)
    requires p.station.Some? ==> '&' !in p.station.value
    ensures ParseQuery(QueryString(p)) == Some(Entries(p))
  {
    var es := Entries(p);
    ParsePairsRenderAll(es);
    if |es| >= 1 {
      EntriesExactlySupplied(p);
      forall i | 0 <= i < |es| ensures '&' !in es[i].1 {
        assert es[i] in es;
        match es[i].0
        case From => NoAmpersandInStrftime(p.fromTime.value);
        case To => NoAmpersandInStrftime(p.toTime.value);
        case Station =>
        case Offset => NoAmpersandInInt(p.offset.value);
        case Limit => NoAmpersandInInt(p.limit.value);
      }
      NoAmpersandRendered(es);
      SplitJoin(RenderAll(es), '&');
      assert QueryString(p)[1..] == Join(RenderAll(es), '&');
    }
  }

  /** A station name containing `&` is read back as a stray key: the text no longer parses
      as the builder's pairs. */
  lemma AmpersandInStationBreaksQuery()
    ensures ParseQuery(QueryString(Params(None, None, Some("a&b"), None, None))) == None
  {
    var p := Params(None, None, Some("a&b"), None, None);
    assert Entries(p) == [(Station, "a&b")];
    assert QueryString(p)[1..] == "station=a" + ['&'] + "b";
    SplitAtSeparator("station=a", "b", '&');
    SplitWithoutSeparator("b", '&');
    assert ParsePair("b") == ("b", "") by {
      assert "b"[0] == 'b' && "b"[1..] == "";
      assert ParsePair("") == ("", "");
      assert ['b'] + "" == "b";
    }
  }

  lemma PadTwoDigits(n: nat)
    requires n < 100
    ensures ZeroPad(n, 2) == [DigitChar(n / 10), DigitChar(n % 10)]
  {
    assert ZeroPad(n / 10, 1) == [DigitChar(n / 10)];
  }

  lemma PadYear2020()
    ensures ZeroPad(2020, 4) == "2020"
  {
    assert ZeroPad(20, 2) == "20";
    assert ZeroPad(202, 3) == "202";
  }

  lemma PadSixZeros()
    ensures ZeroPad(0, 6) == "000000"
  {
    assert ZeroPad(0, 1) == "0";
    assert ZeroPad(0, 2) == "00";
    assert ZeroPad(0, 3) == "000";
    assert ZeroPad(0, 4) == "0000";
    assert ZeroPad(0, 5) == "00000";
  }

  lemma ExampleLiteral()
    ensures "2020-04-30" + "T" + "03:00" + ":" + "00.000000" + "Z" == "2020-04-30T03:00:00.000000Z"
  {
  }

  lemma ExampleTimestamp(t: DateTime)
    requires WallClock(t) == Clock(2020, 4, 30, 3, 0, 0, 0)
    ensures Strftime(t) == "2020-04-30T03:00:00.000000Z"
  {
    ExampleDate(t);
    ExampleTime(t);
    ExampleSeconds(t);
    ExampleLiteral();
  }

  lemma ExampleDate(t: DateTime)
    requires t.year == 2020 && t.month == 4 && t.day == 30
    ensures DatePart(t) == "2020-04-30"
  {
    PadYear2020();
    PadTwoDigits(t.month);
    PadTwoDigits(t.day);
    assert DigitChar(0) == '0' && DigitChar(3) == '3' && DigitChar(4) == '4';
    assert DatePart(t) == "2020" + "-" + "04" + "-" + "30";
  }

  lemma ExampleTime(t: DateTime)
    requires t.hour == 3 && t.minute == 0
    ensures TimePart(t) == "03:00"
  {
    PadTwoDigits(t.hour);
    PadTwoDigits(t.minute);
    assert DigitChar(0) == '0' && DigitChar(3) == '3';
    assert TimePart(t) == "03" + ":" + "00";
  }

  lemma ExampleSeconds(t: DateTime)
    requires t.second == 0 && t.microsecond == 0
    ensures SecondsPart(t) == "00.000000"
  {
    PadSixZeros();
    PadTwoDigits(t.second);
    assert DigitChar(0) == '0';
    assert SecondsPart(t) == "00" + "." + "000000";
  }

  lemma ExampleIntegers()
    ensures IntToString(0) == "0" && IntToString(10) == "10"
  {
    assert DigitChar(1) == '1' && DigitChar(0) == '0';
  }

  lemma ExampleRendered(ts: string)
    ensures RenderAll([(From, ts), (Station, "triplej"), (Offset, "0"), (Limit, "10")])
         == ["from=" + ts, "station=triplej", "offset=0", "limit=10"]
  {
    var es := [(From, ts), (Station, "triplej"), (Offset, "0"), (Limit, "10")];
    assert RenderAll(es[3..]) == ["limit=10"] by {
      assert Name(Limit) + "=" + "10" == "limit=10";
      assert es[3..][1..] == [];
    }
    assert RenderAll(es[2..]) == ["offset=0", "limit=10"] by {
      assert Name(Offset) + "=" + "0" == "offset=0";
      assert es[2..][1..] == es[3..];
    }
    assert RenderAll(es[1..]) == ["station=triplej", "offset=0", "limit=10"] by {
      assert Name(Station) + "=" + "triplej" == "station=triplej";
      assert es[1..][1..] == es[2..];
    }
    assert Name(From) + "=" + ts == "from=" + ts;
  }

  lemma JoinFour(a: string, b: string, c: string, d: string, sep: char)
    ensures Join([a, b, c, d], sep) == a + [sep] + (b + [sep] + (c + [sep] + d))
  {
    assert Join([d], sep) == d;
    assert Join([c, d], sep) == c + [sep] + d by { assert [c, d][1..] == [d]; }
    assert Join([b, c, d], sep) == b + [sep] + (c + [sep] + d) by { assert [b, c, d][1..] == [c, d]; }
    assert [a, b, c, d][1..] == [b, c, d];
  }

  lemma ExampleJoinedText()
    ensures "from=2020-04-30T03:00:00.000000Z" + "&" + ("station=triplej" + "&" + ("offset=0" + "&" + "limit=10"))
         == "from=2020-04-30T03:00:00.000000Z&station=triplej&offset=0&limit=10"
  {
    ExampleJoinedTail();
    ExampleJoinedHead();
  }

  lemma ExampleJoinedTail()
    ensures "station=triplej" + "&" + ("offset=0" + "&" + "limit=10") == "station=triplej&offset=0&limit=10"
  {
    assert "offset=0" + "&" + "limit=10" == "offset=0&limit=10";
  }

  lemma ExampleJoinedHead()
    ensures "from=2020-04-30T03:00:00.000000Z" + "&" + "station=triplej&offset=0&limit=10"
         == "from=2020-04-30T03:00:00.000000Z&station=triplej&offset=0&limit=10"
  {
  }

  lemma ExampleEntries(t: DateTime)
    ensures Entries(Params(Some(t), None, Some("triplej"), Some(0), Some(10)))
         == [(From, Strftime(t)), (Station, "triplej"), (Offset, IntToString(0)), (Limit, IntToString(10))]
  {
    var p := Params(Some(t), None, Some("triplej"), Some(0), Some(10));
    assert Pick(p, From) == [(From, Strftime(t))];
    assert Pick(p, To) == [];
    assert Pick(p, Station) == [(Station, "triplej")];
    assert Pick(p, Offset) == [(Offset, IntToString(0))];
    assert Pick(p, Limit) == [(Limit, IntToString(10))];
  }

  lemma ExampleQuery()
    ensures Join(RenderAll([(From, "2020-04-30T03:00:00.000000Z"), (Station, "triplej"), (Offset, "0"), (Limit, "10")]), '&')
         == "from=2020-04-30T03:00:00.000000Z&station=triplej&offset=0&limit=10"
  {
    var ts := "2020-04-30T03:00:00.000000Z";
    var lit := "from=2020-04-30T03:00:00.000000Z";
    calc {
      Join(RenderAll([(From, ts), (Station, "triplej"), (Offset, "0"), (Limit, "10")]), '&');
      { ExampleRendered(ts); }
      Join(["from=" + ts, "station=triplej", "offset=0", "limit=10"], '&');
      { assert "from=" + ts == lit; }
      Join([lit, "station=triplej", "offset=0", "limit=10"], '&');
      { JoinFour(lit, "station=triplej", "offset=0", "limit=10", '&'); }
      lit + "&" + ("station=triplej" + "&" + ("offset=0" + "&" + "limit=10"));
      { ExampleJoinedText(); }
      "from=2020-04-30T03:00:00.000000Z&station=triplej&offset=0&limit=10";
    }
  }

  /** The example in the builder's docstring, `?from=2020-04-30T03:00:00.000000Z&station=triplej
      &offset=0&limit=10`, for any datetime whose wall clock reads 2020-04-30 03:00:00. */
  lemma DocstringExample(t: DateTime)
    requires WallClock(t) == Clock(2020, 4, 30, 3, 0, 0, 0)
    ensures QueryString(Params(Some(t), None, Some("triplej"), Some(0), Some(10)))
         == "?" + "from=2020-04-30T03:00:00.000000Z&station=triplej&offset=0&limit=10"
  {
    ExampleEntries(t);
    ExampleTimestamp(t);
    ExampleIntegers();
    ExampleQuery();
  }
}
