/**
 * The request strings of the command-line bars fetcher: the two query enums and
 * how they are rendered, the parsed arguments, the aggregates URL with and
 * without the API key, the bearer header, and the two requests the program sends.
 */
module Aggregates {
  import opened Wrappers
  import opened Formatting

  /** Rust's `u8`, the type of the `multiplier` argument. */
  newtype u8 = x: int | 0 <= x < 256

  /** The unit of one aggregation window. */
  datatype Timespan = Second | Minute | Hour | Day | Week | Month | Quarter | Year {
    /** The derived `Debug` output: the variant's identifier. */
    function DebugName(): string {
      match this
      case Second => "Second"
      case Minute => "Minute"
      case Hour => "Hour"
      case Day => "Day"
      case Week => "Week"
      case Month => "Month"
      case Quarter => "Quarter"
      case Year => "Year"
    }
  }

  /** The order of the returned bars. */
  datatype Sort = Asc | Desc {
    /** The derived `Debug` output: the variant's identifier. */
    function DebugName(): string {
      match this
      case Asc => "Asc"
      case Desc => "Desc"
    }
  }

  /** The variants in declaration order, as `ValueEnum::value_variants` lists them. */
  const AllTimespans: seq<Timespan> := [Second, Minute, Hour, Day, Week, Month, Quarter, Year]
  const AllSorts: seq<Sort> := [Asc, Desc]

  /** The parsed command line. */
  datatype Args = Args(
    symbol: string,
    multiplier: u8,
    timespan: Timespan,
    from: string,
    to: string,
    adjusted: bool,
    sort: Sort)

  /** The declared defaults of `multiplier` and `adjusted`. */
  const DefaultMultiplier: u8 := 1
  const DefaultAdjusted: bool := true

  /**
   * `Display` writes the `Debug` name; the program then lowers it. The result is
   * the name letter for letter, with no capital left.
   */
  function RenderTimespan(t: Timespan): (r: string)
    ensures |r| == |t.DebugName()|
    ensures forall i :: 0 <= i < |r| ==>
      !IsUpper(r[i]) && (r[i] == t.DebugName()[i] || r[i] as int == t.DebugName()[i] as int + 32)
  {
    ToLower(t.DebugName())
  }

  function RenderSort(s: Sort): (r: string)
    ensures |r| == |s.DebugName()|
    ensures forall i :: 0 <= i < |r| ==>
      !IsUpper(r[i]) && (r[i] == s.DebugName()[i] || r[i] as int == s.DebugName()[i] as int + 32)
  {
    ToLower(s.DebugName())
  }

  /** The spelling clap accepts on the command line: the identifier in kebab case. */
  function TimespanCliName(t: Timespan): string {
    KebabCase(t.DebugName())
  }

  function SortCliName(s: Sort): string {
    KebabCase(s.DebugName())
  }

  /** The first variant whose name is `s`, as `ValueEnum::from_str` finds it. */
  function FindByName<T(==)>(variants: seq<T>, name: T -> string, s: string): (r: Option<T>)
    ensures r.Some? ==> name(r.value) == s
    ensures r.Some? ==>
      exists i :: 0 <= i < |variants| && variants[i] == r.value && (forall j :: 0 <= j < i ==> name(variants[j]) != s)
    ensures r.None? ==> forall v :: v in variants ==> name(v) != s
  {
    if variants == [] then None
    else if name(variants[0]) == s then Some(variants[0])
    else
      var r := FindByName(variants[1..], name, s);
      if r.None? then r
      else
        var k :| 0 <= k < |variants| - 1 && variants[1..][k] == r.value
          && (forall j :: 0 <= j < k ==> name(variants[1..][j]) != s);
        assert variants[k + 1] == r.value;
        assert forall j :: 1 <= j < k + 1 ==> name(variants[j]) == name(variants[1..][j - 1]);
        r
  }

  /** Every timespan is listed. */
  lemma AllTimespansListed()
    ensures forall t: Timespan :: t in AllTimespans
  {
    forall t: Timespan ensures t in AllTimespans {
      match t
      case Second => case Minute => case Hour => case Day =>
      case Week => case Month => case Quarter => case Year =>
    }
  }

  /** Every sort order is listed. */
  lemma AllSortsListed()
    ensures forall o: Sort :: o in AllSorts
  {
    forall o: Sort ensures o in AllSorts {
      match o
      case Asc => case Desc =>
    }
  }

  /** Reads a `--timespan` value: a variant spelled `s`, or nothing when none is. */
  function ParseTimespan(s: string): (r: Option<Timespan>)
    ensures r.Some? ==> TimespanCliName(r.value) == s
    ensures r.None? <==> forall t: Timespan :: TimespanCliName(t) != s
  {
    AllTimespansListed();
    FindByName(AllTimespans, TimespanCliName, s)
  }

  /** Reads a `--sort` value: a variant spelled `s`, or nothing when none is. */
  function ParseSort(s: string): (r: Option<Sort>)
    ensures r.Some? ==> SortCliName(r.value) == s
    ensures r.None? <==> forall o: Sort :: SortCliName(o) != s
  {
    AllSortsListed();
    FindByName(AllSorts, SortCliName, s)
  }

  /** Each timespan is rendered as its name in small letters. */
  lemma RenderTimespanNames(t: Timespan)
    ensures RenderTimespan(t) ==
      match t
      case Second => "second"
      case Minute => "minute"
      case Hour => "hour"
      case Day => "day"
      case Week => "week"
      case Month => "month"
      case Quarter => "quarter"
      case Year => "year"
  {
    match t
    case Second => LowerWord("Second", "second");
    case Minute => LowerWord("Minute", "minute");
    case Hour => LowerWord("Hour", "hour");
    case Day => LowerWord("Day", "day");
    case Week => LowerWord("Week", "week");
    case Month => LowerWord("Month", "month");
    case Quarter => LowerWord("Quarter", "quarter");
    case Year => LowerWord("Year", "year");
  }

  /** Renderings are made of small letters only, so they hold no URL separator. */
  lemma RenderTimespanIsLowercase(t: Timespan)
    ensures forall i :: 0 <= i < |RenderTimespan(t)| ==> IsLower(RenderTimespan(t)[i])
  {
    assert Letters(t.DebugName()) by {
      match t
      case Second => assert Letters("Second");
      case Minute => assert Letters("Minute");
      case Hour => assert Letters("Hour");
      case Day => assert Letters("Day");
      case Week => assert Letters("Week");
      case Month => assert Letters("Month");
      case Quarter => assert Letters("Quarter");
      case Year => assert Letters("Year");
    }
    LowerOfLetters(t.DebugName());
  }

  lemma RenderSortIsLowercase(o: Sort)
    ensures forall i :: 0 <= i < |RenderSort(o)| ==> IsLower(RenderSort(o)[i])
  {
    assert Letters(o.DebugName());
    LowerOfLetters(o.DebugName());
  }

  /** Distinct timespans are rendered as distinct strings. */
  lemma RenderTimespanInjective(t1: Timespan, t2: Timespan)
    ensures RenderTimespan(t1) == RenderTimespan(t2) ==> t1 == t2
  {
    RenderTimespanNames(t1);
    RenderTimespanNames(t2);
  }

  /** A sort order is rendered as exactly "asc" or "desc". */
  lemma RenderSortNames(s: Sort)
    ensures RenderSort(s) == if s == Asc then "asc" else "desc"
  {
  }

  /** The command-line spelling of a timespan is its URL rendering. */
  lemma TimespanCliNameIsRendering(t: Timespan)
    ensures TimespanCliName(t) == RenderTimespan(t)
  {
    assert SingleWord(t.DebugName()) by {
      match t
      case Second =>
      case Minute =>
      case Hour =>
      case Day =>
      case Week =>
      case Month =>
      case Quarter =>
      case Year =>
    }
    KebabCaseOfSingleWord(t.DebugName());
  }

  lemma SortCliNameIsRendering(s: Sort)
    ensures SortCliName(s) == RenderSort(s)
  {
    assert SingleWord(s.DebugName());
    KebabCaseOfSingleWord(s.DebugName());
  }

  /**
   * A command-line value is accepted as `t` exactly when it is the rendering of `t`,
   * so reading a value and rendering it back gives the same string.
   */
  lemma ParseTimespanRoundTrip(s: string, t: Timespan)
    ensures ParseTimespan(s) == Some(t) <==> s == RenderTimespan(t)
  {
    TimespanCliNameIsRendering(t);
    var r := ParseTimespan(s);
    if r.Some? {
      TimespanCliNameIsRendering(r.value);
      RenderTimespanInjective(r.value, t);
    }
    if s == RenderTimespan(t) {
      assert t in AllTimespans;
    }
  }

  lemma ParseSortRoundTrip(s: string, o: Sort)
    ensures ParseSort(s) == Some(o) <==> s == RenderSort(o)
  {
    SortCliNameIsRendering(o);
    var r := ParseSort(s);
    if r.Some? {
      SortCliNameIsRendering(r.value);
      RenderSortNames(r.value);
      RenderSortNames(o);
    }
    if s == RenderSort(o) {
      assert o in AllSorts;
    }
  }

  /**
   * The URL string handed to the client for the header-authenticated request: the
   * endpoint, then the symbol as typed; its full layout is in `AggregatesUrl.UrlForLayout`.
   */
  function PlainUrl(a: Args): (r: string)
    ensures "https://api.polygon.io/v2/aggs/ticker/" + a.symbol + "/range/" <= r
  {
    HeadPrefix("https://api.polygon.io/v2/aggs/ticker/" + a.symbol + "/range/", Decimal(a.multiplier as int),
      RenderTimespan(a.timespan), a.from, a.to, BoolText(a.adjusted), RenderSort(a.sort));
    "https://api.polygon.io/v2/aggs/ticker/" + a.symbol + "/range/" + Decimal(a.multiplier as int)
      + "/" + RenderTimespan(a.timespan) + "/" + a.from + "/" + a.to
      + "?adjusted=" + BoolText(a.adjusted) + "&sort=" + RenderSort(a.sort)
  }

  /**
   * The URL that carries the API key itself, written out in full as the program
   * does. It is the plain URL followed by one `apiKey` parameter and nothing else.
   */
  function KeyedUrl(a: Args, key: string): (r: string)
    ensures r == PlainUrl(a) + "&apiKey=" + key
    ensures PlainUrl(a) < r
  {
    "https://api.polygon.io/v2/aggs/ticker/" + a.symbol + "/range/" + Decimal(a.multiplier as int)
      + "/" + RenderTimespan(a.timespan) + "/" + a.from + "/" + a.to
      + "?adjusted=" + BoolText(a.adjusted) + "&sort=" + RenderSort(a.sort) + "&apiKey=" + key
  }

  /** The value of the `Authorization` header: the key after the word `Bearer` and one space. */
  function BearerHeader(key: string): (r: string)
    ensures StripPrefix("Bearer ", r) == Some(key)
    ensures |r| == |key| + 7
  {
    "Bearer " + key
  }

  /** One GET request: where it goes and the `Authorization` header it carries, if any. */
  datatype Request = Request(url: string, authorization: Option<string>)

  /**
   * The requests the program sends, in order: the key in the URL with no header,
   * then the same URL without the key and the key in a bearer header.
   */
  function Requests(a: Args, key: string): (r: seq<Request>)
    ensures |r| == 2
    ensures r[0].url == KeyedUrl(a, key) && r[1].url == PlainUrl(a)
    ensures r[0].url == r[1].url + "&apiKey=" + key
    ensures r[0].authorization == None
    ensures r[1].authorization.Some? && StripPrefix("Bearer ", r[1].authorization.value) == Some(key)
  {
    [Request(KeyedUrl(a, key), None), Request(PlainUrl(a), Some(BearerHeader(key)))]
  }

  /** Unset `multiplier` and `adjusted` show in the URL as "1" and "true". */
  lemma DefaultsRendering()
    ensures Decimal(DefaultMultiplier as int) == "1"
    ensures BoolText(DefaultAdjusted) == "true"
  {
  }

  /** Any multiplier shows in the URL as one to three digits denoting it. */
  lemma MultiplierRendering(m: u8)
    ensures 1 <= |Decimal(m as int)| <= 3
    ensures AllDigits(Decimal(m as int)) && DigitsValue(Decimal(m as int)) == m as int
  {
    DecimalOfByte(m as int);
  }

  /**
   * Symbol, from and to are pasted in without encoding: moving a `/` from the end
   * of `from` to the start of `to` gives different arguments and the same URL.
   */
  lemma SlashMovesBetweenFromAndTo(a: Args, x: string, y: string, z: string)
    ensures a.(from := x + "/" + y, to := z) != a.(from := x, to := y + "/" + z)
    ensures PlainUrl(a.(from := x + "/" + y, to := z)) == PlainUrl(a.(from := x, to := y + "/" + z))
  {
    var a1 := a.(from := x + "/" + y, to := z);
    var a2 := a.(from := x, to := y + "/" + z);
    assert |a1.from| != |a2.from|;
    var head := "https://api.polygon.io/v2/aggs/ticker/" + a.symbol + "/range/" + Decimal(a.multiplier as int)
      + "/" + RenderTimespan(a.timespan) + "/";
    SplitOff(head + a1.from + "/" + a1.to, "?adjusted=", BoolText(a.adjusted), "&sort=", RenderSort(a.sort));
    SplitOff(head + a2.from + "/" + a2.to, "?adjusted=", BoolText(a.adjusted), "&sort=", RenderSort(a.sort));
    MoveSlash(head, x, y, z);
  }

  /** Regrouping helpers for long concatenations. */
  lemma HeadPrefix(h: string, d: string, t: string, f: string, u: string, b: string, o: string)
    ensures h <= h + d + "/" + t + "/" + f + "/" + u + "?adjusted=" + b + "&sort=" + o
  {
    var tail := d + "/" + t + "/" + f + "/" + u + "?adjusted=" + b + "&sort=" + o;
    assert h + d + "/" + t + "/" + f + "/" + u + "?adjusted=" + b + "&sort=" + o == h + tail;
    assert (h + tail)[..|h|] == h;
  }

  lemma SplitOff(u: string, p: string, q: string, r: string, s: string)
    ensures u + p + q + r + s == u + (p + q + r + s)
  {
  }

  lemma MoveSlash(h: string, x: string, y: string, z: string)
    ensures h + (x + "/" + y) + "/" + z == h + x + "/" + (y + "/" + z)
  {
  }

  /** The fixed query of the non-configurable program. */
  const Aapl := Args("AAPL", 1, Day, "2023-01-09", "2023-02-10", true, Asc)

  /**
   * The URL the fixed-query program requests, in three literal pieces: the
   * endpoint, the path of the query and its parameters.
   */
  const AaplUrl := "https://api.polygon.io/v2/aggs/ticker/" + "AAPL/range/1/day/2023-01-09/2023-02-10"
    + "?adjusted=true&sort=asc"

  /** The path and query pieces of the fixed query join to that URL. */
  lemma AaplLiteral()
    ensures "https://api.polygon.io/v2/aggs/ticker/" + "AAPL" + "/range/" + "1" + "/" + "day" + "/"
      + "2023-01-09" + "/" + "2023-02-10" + "?adjusted=" + "true" + "&sort=" + "asc" == AaplUrl
  {
    // The pieces of the path are joined one at a time ...
    assert "AAPL" + "/range/" == "AAPL/range/";
    assert "AAPL/range/" + "1" == "AAPL/range/1";
    assert "AAPL/range/1" + "/" == "AAPL/range/1/";
    assert "AAPL/range/1/" + "day" == "AAPL/range/1/day";
    assert "AAPL/range/1/day" + "/" == "AAPL/range/1/day/";
    assert "AAPL/range/1/day/" + "2023-01-09" == "AAPL/range/1/day/2023-01-09";
    assert "AAPL/range/1/day/2023-01-09" + "/" == "AAPL/range/1/day/2023-01-09/";
    assert "AAPL/range/1/day/2023-01-09/" + "2023-02-10" == "AAPL/range/1/day/2023-01-09/2023-02-10";
    // ... then those of the query ...
    assert "?adjusted=" + "true" == "?adjusted=true";
    assert "?adjusted=true" + "&sort=" == "?adjusted=true&sort=";
    assert "?adjusted=true&sort=" + "asc" == "?adjusted=true&sort=asc";
    // ... and the whole is regrouped around them.
    PathRegroup("https://api.polygon.io/v2/aggs/ticker/", "AAPL", "/range/", "1", "/", "day", "/",
      "2023-01-09", "/", "2023-02-10");
    SplitOff("https://api.polygon.io/v2/aggs/ticker/" + "AAPL" + "/range/" + "1" + "/" + "day" + "/"
      + "2023-01-09" + "/" + "2023-02-10", "?adjusted=", "true", "&sort=", "asc");
  }

  lemma PathRegroup(h: string, p1: string, p2: string, p3: string, p4: string, p5: string,
                    p6: string, p7: string, p8: string, p9: string)
    ensures h + p1 + p2 + p3 + p4 + p5 + p6 + p7 + p8 + p9
      == h + (p1 + p2 + p3 + p4 + p5 + p6 + p7 + p8 + p9)
  {
  }

  /** The fixed query renders to the URL of the fixed-query program ... */
  lemma AaplPlainUrl()
    ensures PlainUrl(Aapl) == AaplUrl
  {
    RenderTimespanNames(Day);
    RenderSortNames(Asc);
    assert Decimal(Aapl.multiplier as int) == "1";
    assert PlainUrl(Aapl) == "https://api.polygon.io/v2/aggs/ticker/" + "AAPL" + "/range/" + "1" + "/" + "day" + "/"
      + "2023-01-09" + "/" + "2023-02-10" + "?adjusted=" + "true" + "&sort=" + "asc";
    AaplLiteral();
  }

  /** ... and the URL it sends with the key in it. */
  lemma AaplKeyedUrl(key: string)
    ensures KeyedUrl(Aapl, key) == AaplUrl + "&apiKey=" + key
  {
    AaplPlainUrl();
  }
}
