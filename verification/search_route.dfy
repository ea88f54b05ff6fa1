/**
 * The same-origin proxy `GET /api/search` (app/api/search/route.ts): it
 * defaults the optional parameters, refuses a request without a query, and
 * otherwise forwards to the search service and relays the answer.
 *
 * The fetch is a parameter (`fetch: string -> Outcome`) and so is
 * `encodeURIComponent` (`encode`), whose behaviour section 2.1 of RFC 3986
 * and the ECMAScript standard define; neither is interpreted here.
 */
module SearchRoute {
  import opened Optional
  import opened Json
  import opened Fetch

  /** `searchParams.get(...)` for the five parameters; `None` is `null`. */
  datatype Params = Params(
    query: Option<string>,
    confidenceLevel: Option<string>,
    sortingOrder: Option<string>,
    currentPage: Option<string>,
    pageSize: Option<string>)

  /** The four optional parameters after defaulting. */
  datatype Settings = Settings(
    confidenceLevel: string,
    sortingOrder: string,
    currentPage: string,
    pageSize: string)

  datatype Response = Response(status: int, body: Json)

  const DefaultConfidence: string := "0.25"
  const DefaultSorting: string := "REL_DESC"
  const DefaultPage: string := "1"
  const DefaultSize: string := "10"

  const NoQueryMessage: string := "No query provided"
  const FailureMessage: string := "Failed to fetch data from PolyKteo API"

  const UpstreamSearch: string :=
    "https://poly-kteo-poc-d4c9fkgrbaahe5hg.eastasia-01.azurewebsites.net/search"

  /** A parameter is truthy when it is there and not the empty string. */
  predicate Present(v: Option<string>) {
    v.Some? && v.value != ""
  }

  /** `v || fallback` on a `string | null`. */
  function OrDefault(v: Option<string>, fallback: string): (r: string)
    ensures Present(v) ==> r == v.value
    ensures !Present(v) ==> r == fallback
  {
    match v
    case None => fallback
    case Some(x) => if x == "" then fallback else x
  }

  /**
   * The defaulting of the four optional parameters: each present value is
   * kept exactly as given (no validation, no clamping); each absent or empty
   * one takes its default.
   */
  function Resolve(p: Params): (r: Settings)
    ensures Present(p.confidenceLevel) ==> r.confidenceLevel == p.confidenceLevel.value
    ensures !Present(p.confidenceLevel) ==> r.confidenceLevel == "0.25"
    ensures Present(p.sortingOrder) ==> r.sortingOrder == p.sortingOrder.value
    ensures !Present(p.sortingOrder) ==> r.sortingOrder == "REL_DESC"
    ensures Present(p.currentPage) ==> r.currentPage == p.currentPage.value
    ensures !Present(p.currentPage) ==> r.currentPage == "1"
    ensures Present(p.pageSize) ==> r.pageSize == p.pageSize.value
    ensures !Present(p.pageSize) ==> r.pageSize == "10"
    ensures r.confidenceLevel != "" && r.sortingOrder != "" && r.currentPage != "" && r.pageSize != ""
  {
    Settings(
      OrDefault(p.confidenceLevel, DefaultConfidence),
      OrDefault(p.sortingOrder, DefaultSorting),
      OrDefault(p.currentPage, DefaultPage),
      OrDefault(p.pageSize, DefaultSize))
  }

  /** A request that spells out every setting explicitly. */
  function Explicit(query: Option<string>, s: Settings): Params {
    Params(query, Some(s.confidenceLevel), Some(s.sortingOrder), Some(s.currentPage), Some(s.pageSize))
  }

  /** Defaulting is idempotent: resolving already-resolved settings changes nothing. */
  lemma ResolveIdempotent(p: Params)
    ensures Resolve(Explicit(p.query, Resolve(p))) == Resolve(p)
  {
  }

  /**
   * The upstream URL as the route interpolates it: the search endpoint with
   * five `key=value` pairs joined by `&`, of which only the query's value is
   * encoded; the four settings go in verbatim (see `SettingsNotEscaped`).
   */
  function UpstreamUrl(query: string, s: Settings, encode: string -> string): (url: string)
    ensures url == UpstreamSearch + "?" + QueryString(UpstreamPairs(query, s, encode))
  {
    PairsUnfold(query, s, encode);
    UrlRegrouped(encode(query), s.confidenceLevel, s.sortingOrder, s.currentPage, s.pageSize);
    UpstreamSearch + "?query=" + encode(query)
    + "&confidence_level=" + s.confidenceLevel
    + "&sorting_order=" + s.sortingOrder
    + "&current_page=" + s.currentPage
    + "&page_size=" + s.pageSize
  }

  /**
   * The settings are not escaped: a page size that (after the route's own
   * decoding of its parameters) reads `z&x` puts the extra text `&x` into the
   * upstream URL, where it is taken as further parameters.
   */
  lemma SettingsNotEscaped(query: string, s: Settings, encode: string -> string, x: string)
    ensures UpstreamUrl(query, s.(pageSize := s.pageSize + "&" + x), encode)
            == UpstreamUrl(query, s, encode) + "&" + x
  {
    var head := UpstreamSearch + "?query=" + encode(query)
      + "&confidence_level=" + s.confidenceLevel
      + "&sorting_order=" + s.sortingOrder
      + "&current_page=" + s.currentPage
      + "&page_size=";
    assert UpstreamUrl(query, s, encode) == head + s.pageSize;
    assert UpstreamUrl(query, s.(pageSize := s.pageSize + "&" + x), encode) == head + (s.pageSize + "&" + x);
  }

  /** Reference definition: `k1=v1&k2=v2&...` from key/value pairs. */
  function QueryString(pairs: seq<(string, string)>): string
    decreases |pairs|
  {
    if |pairs| == 0 then ""
    else if |pairs| == 1 then pairs[0].0 + "=" + pairs[0].1
    else pairs[0].0 + "=" + pairs[0].1 + "&" + QueryString(pairs[1..])
  }

  /** The pairs the route sends, in order. */
  function UpstreamPairs(query: string, s: Settings, encode: string -> string): seq<(string, string)> {
    [("query", encode(query)),
     ("confidence_level", s.confidenceLevel),
     ("sorting_order", s.sortingOrder),
     ("current_page", s.currentPage),
     ("page_size", s.pageSize)]
  }

  /** The five pairs joined, written out. */
  lemma {:induction false} PairsUnfold(query: string, s: Settings, encode: string -> string)
    ensures QueryString(UpstreamPairs(query, s, encode))
            == "query=" + encode(query) + "&" + ("confidence_level=" + s.confidenceLevel + "&"
               + ("sorting_order=" + s.sortingOrder + "&" + ("current_page=" + s.currentPage + "&"
               + ("page_size=" + s.pageSize))))
  {
    var q, c, o, g, z := encode(query), s.confidenceLevel, s.sortingOrder, s.currentPage, s.pageSize;
    var p4 := [("page_size", z)];
    var p3 := [("current_page", g)] + p4;
    var p2 := [("sorting_order", o)] + p3;
    var p1 := [("confidence_level", c)] + p2;
    var p0 := [("query", q)] + p1;
    assert p0 == UpstreamPairs(query, s, encode);
    assert p0[1..] == p1 && p1[1..] == p2 && p2[1..] == p3 && p3[1..] == p4;
    assert QueryString(p4) == "page_size" + "=" + z;
    assert "page_size" + "=" == "page_size=";
    assert "current_page" + "=" == "current_page=";
    assert "sorting_order" + "=" == "sorting_order=";
    assert "confidence_level" + "=" == "confidence_level=";
    assert "query" + "=" == "query=";
    var t4 := "page_size=" + z;
    var t3 := "current_page=" + g + "&" + t4;
    var t2 := "sorting_order=" + o + "&" + t3;
    var t1 := "confidence_level=" + c + "&" + t2;
    assert QueryString(p4) == t4;
    assert QueryString(p3) == t3;
    assert QueryString(p2) == t2;
    assert QueryString(p1) == t1;
  }

  /** The left-to-right interpolation, regrouped into nested `key=value&rest` pieces. */
  lemma UrlRegrouped(q: string, c: string, o: string, g: string, z: string)
    ensures UpstreamSearch + "?query=" + q + "&confidence_level=" + c + "&sorting_order=" + o
            + "&current_page=" + g + "&page_size=" + z
            == UpstreamSearch + "?" + ("query=" + q + "&" + ("confidence_level=" + c + "&"
               + ("sorting_order=" + o + "&" + ("current_page=" + g + "&" + ("page_size=" + z)))))
  {
    assert "?" + "query=" == "?query=";
    assert "&" + "confidence_level=" == "&confidence_level=";
    assert "&" + "sorting_order=" == "&sorting_order=";
    assert "&" + "current_page=" == "&current_page=";
    assert "&" + "page_size=" == "&page_size=";
    Regroup(UpstreamSearch, "query=", q, "confidence_level=", c, "sorting_order=", o,
            "current_page=", g, "page_size=", z);
  }

  /** One regrouping step: `x + "&k" + v + r` is `x` followed by `"&"` and the piece `k + v + r`. */
  lemma RegroupStep(x: string, k: string, v: string, r: string)
    ensures x + ("&" + k) + v + r == x + ("&" + (k + v + r))
  {
  }

  /** The left-to-right interpolation, regrouped into nested `key=value&rest` pieces. */
  lemma Regroup(a: string, k0: string, q: string, k1: string, c: string, k2: string, o: string,
                k3: string, g: string, k4: string, z: string)
    ensures a + ("?" + k0) + q + ("&" + k1) + c + ("&" + k2) + o + ("&" + k3) + g + ("&" + k4) + z
         == a + "?" + (k0 + q + "&" + (k1 + c + "&" + (k2 + o + "&" + (k3 + g + "&" + (k4 + z)))))
  {
    var x0 := a + ("?" + k0) + q;
    var x1 := x0 + ("&" + k1) + c;
    var x2 := x1 + ("&" + k2) + o;
    var x3 := x2 + ("&" + k3) + g;
    var t4 := k4 + z;
    var t3 := k3 + g + "&" + t4;
    var t2 := k2 + o + "&" + t3;
    var t1 := k1 + c + "&" + t2;
    RegroupStep(x3, k4, z, []);
    assert x3 + ("&" + k4) + z == x3 + ("&" + t4);
    RegroupStep(x2, k3, g, "&" + t4);
    RegroupStep(x1, k2, o, "&" + t3);
    RegroupStep(x0, k1, c, "&" + t2);
    assert a + "?" + (k0 + q + "&" + t1) == x0 + ("&" + t1);
  }

  /** Only the query passes through the encoder: encoders that agree on it give the same URL. */
  lemma OnlyQueryEncoded(query: string, s: Settings, e1: string -> string, e2: string -> string)
    requires e1(query) == e2(query)
    ensures UpstreamUrl(query, s, e1) == UpstreamUrl(query, s, e2)
  {
  }

  /** What the route decides before any network traffic. */
  datatype Plan = Reply(response: Response) | Forward(url: string)

  /**
   * A missing or empty query is answered at once with the error envelope
   * (status 200); otherwise the request goes upstream.
   */
  function PlanRequest(p: Params, encode: string -> string): (r: Plan)
    ensures r.Reply? <==> !Present(p.query)
    ensures r.Reply? ==> r.response == Response(200, ErrorBody(NoQueryMessage))
    ensures r.Forward? ==> r.url == UpstreamUrl(p.query.value, Resolve(p), encode)
  {
    var settings := Resolve(p);
    if !Present(p.query) then Reply(Response(200, ErrorBody(NoQueryMessage)))
    else Forward(UpstreamUrl(p.query.value, settings, encode))
  }

  /**
   * Relaying the upstream outcome: an ok response whose body parses is passed
   * through verbatim with status 200; any other outcome becomes status 500
   * with a fixed message that carries nothing of the upstream failure.
   */
  function Respond(o: Outcome): (r: Response)
    ensures Delivered(o) ==> r == Response(200, o.body.value)
    ensures !Delivered(o) ==> r == Response(500, ErrorBody(FailureMessage))
    ensures r.status == 200 <==> Delivered(o)
  {
    match o
    case Threw => Response(500, ErrorBody(FailureMessage))
    case Responded(status, body) =>
      if !IsOk(status) then Response(500, ErrorBody(FailureMessage))
      else match body
        case None => Response(500, ErrorBody(FailureMessage))
        case Some(data) => Response(200, data)
  }

  /** Failures are indistinguishable to the route's caller. */
  lemma FailuresIndistinguishable(o1: Outcome, o2: Outcome)
    requires !Delivered(o1) && !Delivered(o2)
    ensures Respond(o1) == Respond(o2)
  {
  }

  /** The whole handler: plan, then fetch at most once, then relay. */
  function Get(p: Params, encode: string -> string, fetch: string -> Outcome): (r: Response)
    ensures !Present(p.query) ==> r == Response(200, ErrorBody(NoQueryMessage))
    ensures Present(p.query) ==> r == Respond(fetch(UpstreamUrl(p.query.value, Resolve(p), encode)))
    ensures r.status == 500 ==> r.body == ErrorBody(FailureMessage)
    ensures r.status == 200 || r.status == 500
  {
    match PlanRequest(p, encode)
    case Reply(response) => response
    case Forward(url) => Respond(fetch(url))
  }

  /** Without a query the upstream service is never consulted. */
  lemma NoQueryNoFetch(p: Params, encode: string -> string, f1: string -> Outcome, f2: string -> Outcome)
    requires !Present(p.query)
    ensures Get(p, encode, f1) == Get(p, encode, f2)
  {
  }
}
