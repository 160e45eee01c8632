/**
 * Reading an aggregates URL back into the arguments it was built from. The
 * parser is the partner of `PlainUrl` and `KeyedUrl`: on arguments whose
 * free-text fields cannot be confused with the URL's separators it recovers
 * them exactly, and it accepts nothing else.
 */
module AggregatesUrl {
  import opened Wrappers
  import opened Formatting
  import opened Aggregates

  const Endpoint: string := "https://api.polygon.io/v2/aggs/ticker/"

  /**
   * The fields that are pasted into the URL verbatim do not contain the separator
   * that ends them: `/` after the symbol and after `from`, `?` after `to`.
   */
  predicate Unambiguous(a: Args) {
    '/' !in a.symbol && '/' !in a.from && '?' !in a.to
  }

  /** The URL sent for arguments `a`, with the key in it or not. */
  function UrlFor(a: Args, key: Option<string>): string {
    match key
    case None => PlainUrl(a)
    case Some(k) => KeyedUrl(a, k)
  }

  /** Reads a `u8` printed by `Display`: digits only, no leading zero, at most 255. */
  function ParseU8(s: string): (r: Option<u8>)
    ensures r.Some? <==> exists n: nat :: n < 256 && Decimal(n) == s
    ensures r.Some? ==> Decimal(r.value as int) == s
  {
    if 1 <= |s| && AllDigits(s) && (|s| > 1 ==> s[0] != '0') && DigitsValue(s) < 256 then
      DecimalOfDigits(s);
      Some(DigitsValue(s) as u8)
    else
      None
  }

  function ParseBool(s: string): (r: Option<bool>)
    ensures r.Some? ==> BoolText(r.value) == s
    ensures s == "true" || s == "false" ==> r.Some?
  {
    if s == "true" then Some(true) else if s == "false" then Some(false) else None
  }

  /** Reads `<order>`, optionally followed by `&apiKey=<key>`. */
  function ParseSortAndKey(s: string): Option<(Sort, Option<string>)> {
    match Cut(s, '&')
    case None =>
      var sort :- ParseSort(s);
      Some((sort, None))
    case Some(p) =>
      var sort :- ParseSort(p.0);
      var key :- StripPrefix("apiKey=", p.1);
      Some((sort, Some(key)))
  }

  /** Reads `adjusted=<bool>&sort=<order>`, optionally followed by `&apiKey=<key>`. */
  function ParseQuery(q: string): Option<(bool, Sort, Option<string>)> {
    var r1 :- StripPrefix("adjusted=", q);
    var p1 :- Cut(r1, '&');
    var adjusted :- ParseBool(p1.0);
    var r2 :- StripPrefix("sort=", p1.1);
    var sk :- ParseSortAndKey(r2);
    Some((adjusted, sk.0, sk.1))
  }

  /** Reads an aggregates URL: the arguments, and the API key if the URL carries one. */
  function ParseUrl(u: string): Option<(Args, Option<string>)> {
    var rest :- StripPrefix(Endpoint, u);
    var p1 :- Cut(rest, '/');
    var r2 :- StripPrefix("range/", p1.1);
    var p2 :- Cut(r2, '/');
    var multiplier :- ParseU8(p2.0);
    var p3 :- Cut(p2.1, '/');
    var timespan :- ParseTimespan(p3.0);
    var p4 :- Cut(p3.1, '/');
    var p5 :- Cut(p4.1, '?');
    var query :- ParseQuery(p5.1);
    Some((Args(p1.0, multiplier, timespan, p4.0, p5.0, query.0, query.1), query.2))
  }

  /** The `apiKey` parameter that ends the keyed URL, or nothing. */
  function KeyParam(key: Option<string>): string {
    match key
    case None => ""
    case Some(k) => "&apiKey=" + k
  }

  /** The query string after `?`: adjustment, sort order and, for the keyed URL, the key. */
  function QueryText(adjusted: bool, sort: Sort, key: Option<string>): string {
    "adjusted=" + BoolText(adjusted) + "&sort=" + RenderSort(sort) + KeyParam(key)
  }

  lemma Regroup(e: string, sym: string, d: string, t: string, f: string, to: string, b: string, o: string, k: string)
    ensures e + sym + "/range/" + d + "/" + t + "/" + f + "/" + to + "?adjusted=" + b + "&sort=" + o + k
      == e + (sym + "/" + ("range/" + (d + "/" + (t + "/" + (f + "/" + (to + "?" + ("adjusted=" + b + "&sort=" + o + k)))))))
  {
    var w := to + "?" + ("adjusted=" + b + "&sort=" + o + k);
    QueryTail(e + sym + "/range/" + d + "/" + t + "/" + f + "/", to, b, o, k);
    PathNest(e, sym, d, t, f, w);
  }

  lemma QueryTail(h: string, to: string, b: string, o: string, k: string)
    ensures h + to + "?adjusted=" + b + "&sort=" + o + k == h + (to + "?" + ("adjusted=" + b + "&sort=" + o + k))
  {
    assert "?" + "adjusted=" == "?adjusted=";
  }

  lemma PathNest(e: string, sym: string, d: string, t: string, f: string, w: string)
    ensures e + sym + "/range/" + d + "/" + t + "/" + f + "/" + w
      == e + (sym + "/" + ("range/" + (d + "/" + (t + "/" + (f + "/" + w)))))
  {
    assert "/" + "range/" == "/range/";
  }

  /** Each URL is the endpoint, five `/`-separated path fields, `?` and the query string. */
  lemma UrlForLayout(a: Args, key: Option<string>)
    ensures UrlFor(a, key)
      == Endpoint + (a.symbol + "/" + ("range/" + (Decimal(a.multiplier as int) + "/" + (RenderTimespan(a.timespan)
         + "/" + (a.from + "/" + (a.to + "?" + QueryText(a.adjusted, a.sort, key)))))))
  {
    var d, t := Decimal(a.multiplier as int), RenderTimespan(a.timespan);
    var b, o, k := BoolText(a.adjusted), RenderSort(a.sort), KeyParam(key);
    assert UrlFor(a, key) == PlainUrl(a) + k by {
      match key
      case None =>
        assert PlainUrl(a) + "" == PlainUrl(a);
      case Some(v) =>
    }
    Regroup(Endpoint, a.symbol, d, t, a.from, a.to, b, o, k);
  }

  lemma QueryRegroup(b: string, o: string, k: string)
    ensures "adjusted=" + b + "&sort=" + o + k == "adjusted=" + (b + "&" + ("sort=" + (o + k)))
  {
    assert "&" + "sort=" == "&sort=";
  }

  lemma ParseSortAndKeyOfText(sort: Sort, key: Option<string>)
    ensures ParseSortAndKey(RenderSort(sort) + KeyParam(key)) == Some((sort, key))
  {
    var o := RenderSort(sort);
    assert ParseSort(o) == Some(sort) by {
      ParseSortRoundTrip(o, sort);
    }
    assert '&' !in o by {
      RenderSortIsLowercase(sort);
      assert !IsLower('&');
    }
    match key
    case None =>
      assert o + "" == o;
    case Some(k) =>
      KeyParamLayout(o, k);
      CutAt(o, '&', "apiKey=" + k);
      StripPrefixOf("apiKey=", k);
  }

  lemma KeyParamLayout(o: string, k: string)
    ensures o + KeyParam(Some(k)) == o + "&" + ("apiKey=" + k)
  {
    assert "&" + "apiKey=" == "&apiKey=";
  }

  lemma ParseSortAndKeySound(s: string, sort: Sort, key: Option<string>)
    requires ParseSortAndKey(s) == Some((sort, key))
    ensures s == RenderSort(sort) + KeyParam(key)
  {
    match Cut(s, '&')
    case None =>
      assert ParseSort(s) == Some(sort) && key == None;
      ParseSortRoundTrip(s, sort);
      assert s + "" == s;
    case Some(p) =>
      var k := StripPrefix("apiKey=", p.1).value;
      assert ParseSort(p.0) == Some(sort) && key == Some(k);
      ParseSortRoundTrip(p.0, sort);
      KeyParamLayout(p.0, k);
  }

  lemma ParseQueryOfText(adjusted: bool, sort: Sort, key: Option<string>)
    ensures ParseQuery(QueryText(adjusted, sort, key)) == Some((adjusted, sort, key))
  {
    var b, rest := BoolText(adjusted), RenderSort(sort) + KeyParam(key);
    assert QueryText(adjusted, sort, key) == "adjusted=" + (b + "&" + ("sort=" + rest)) by {
      QueryRegroup(b, RenderSort(sort), KeyParam(key));
    }
    StripPrefixOf("adjusted=", b + "&" + ("sort=" + rest));
    CutAt(b, '&', "sort=" + rest);
    StripPrefixOf("sort=", rest);
    ParseSortAndKeyOfText(sort, key);
  }

  lemma ParseQuerySound(q: string, adjusted: bool, sort: Sort, key: Option<string>)
    requires ParseQuery(q) == Some((adjusted, sort, key))
    ensures q == QueryText(adjusted, sort, key)
  {
    var r1 := StripPrefix("adjusted=", q).value;
    var p1 := Cut(r1, '&').value;
    var r2 := StripPrefix("sort=", p1.1).value;
    assert ParseBool(p1.0) == Some(adjusted);
    ParseSortAndKeySound(r2, sort, key);
    QueryRegroup(p1.0, RenderSort(sort), KeyParam(key));
  }

  /** A URL built from unambiguous arguments reads back as those arguments and that key. */
  lemma ParseUrlComplete(a: Args, key: Option<string>)
    requires Unambiguous(a)
    ensures ParseUrl(UrlFor(a, key)) == Some((a, key))
  {
    var d, t := Decimal(a.multiplier as int), RenderTimespan(a.timespan);
    var q := QueryText(a.adjusted, a.sort, key);
    var r4 := a.from + "/" + (a.to + "?" + q);
    var r2 := d + "/" + (t + "/" + r4);
    UrlForLayout(a, key);
    StripPrefixOf(Endpoint, a.symbol + "/" + ("range/" + r2));
    CutAt(a.symbol, '/', "range/" + r2);
    StripPrefixOf("range/", r2);
    assert Cut(r2, '/') == Some((d, t + "/" + r4)) by {
      assert !IsDigit('/');
      CutAt(d, '/', t + "/" + r4);
    }
    assert ParseU8(d) == Some(a.multiplier);
    assert Cut(t + "/" + r4, '/') == Some((t, r4)) by {
      RenderTimespanIsLowercase(a.timespan);
      assert !IsLower('/');
      CutAt(t, '/', r4);
    }
    assert ParseTimespan(t) == Some(a.timespan) by {
      ParseTimespanRoundTrip(t, a.timespan);
    }
    CutAt(a.from, '/', a.to + "?" + q);
    CutAt(a.to, '?', q);
    ParseQueryOfText(a.adjusted, a.sort, key);
  }

  /** Whatever the parser accepts is the URL of unambiguous arguments and the key it reports. */
  lemma ParseUrlSound(u: string, a: Args, key: Option<string>)
    requires ParseUrl(u) == Some((a, key))
    ensures Unambiguous(a) && u == UrlFor(a, key)
  {
    var rest := StripPrefix(Endpoint, u).value;
    var p1 := Cut(rest, '/').value;
    var r2 := StripPrefix("range/", p1.1).value;
    var p2 := Cut(r2, '/').value;
    var m := ParseU8(p2.0).value;
    var p3 := Cut(p2.1, '/').value;
    var t := ParseTimespan(p3.0).value;
    var p4 := Cut(p3.1, '/').value;
    var p5 := Cut(p4.1, '?').value;
    var query := ParseQuery(p5.1).value;
    assert a == Args(p1.0, m, t, p4.0, p5.0, query.0, query.1) && key == query.2;
    ParseTimespanRoundTrip(p3.0, t);
    ParseQuerySound(p5.1, query.0, query.1, query.2);
    UrlForLayout(a, key);
  }

  /**
   * The parser is an exact inverse: it accepts a URL as `(a, key)` precisely when
   * `a` is unambiguous and the URL is the one built from `a` with that key.
   */
  lemma ParseUrlInverse(u: string, a: Args, key: Option<string>)
    ensures ParseUrl(u) == Some((a, key)) <==> Unambiguous(a) && u == UrlFor(a, key)
  {
    if ParseUrl(u) == Some((a, key)) {
      ParseUrlSound(u, a, key);
    }
    if Unambiguous(a) && u == UrlFor(a, key) {
      ParseUrlComplete(a, key);
    }
  }

  /**
   * For unambiguous arguments each request reads back as the same arguments: the
   * first with the key in its URL, the second with none (its key is in the header,
   * as `Requests` states).
   */
  lemma RequestsReadBack(a: Args, key: string)
    requires Unambiguous(a)
    ensures ParseUrl(Requests(a, key)[0].url) == Some((a, Some(key)))
    ensures ParseUrl(Requests(a, key)[1].url) == Some((a, None))
  {
    ParseUrlComplete(a, Some(key));
    ParseUrlComplete(a, None);
  }
}
