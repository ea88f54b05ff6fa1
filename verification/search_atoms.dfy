/**
 * The client-side search store (atoms/search-atoms.ts): the query text, the
 * busy flag, the stored results, and the confidence and sort atoms the
 * search bar imports from the same module.
 *
 * SEARCH is split at its one `await`: `Write(s, Search)` is everything that
 * happens synchronously when the action is dispatched (the empty-query check
 * and raising the busy flag) and hands back the request it issues;
 * `Complete(s, outcome)` is the continuation that runs when that request
 * settles. Anything may happen to the store in between.
 */
module SearchAtoms {
  import opened Optional
  import opened Json
  import opened Fetch

  datatype Action = Search | Reset

  /** The six choices of the sort selector; `Code` is the value it stores. */
  datatype SortOrder = RelDesc | RelAsc | FsdAsc | FsdDesc | DateDesc | DateAsc {
    function Code(): string {
      match this
      case RelDesc => "REL_DESC"
      case RelAsc => "REL_ASC"
      case FsdAsc => "FSD_ASC"
      case FsdDesc => "FSD_DESC"
      case DateDesc => "DATE_DESC"
      case DateAsc => "DATE_ASC"
    }
  }

  /** The three precision buttons; `Level` is the number each one stores. */
  datatype Confidence = Broad | Balanced | Precise {
    function Level(): real {
      match this
      case Broad => 0.0
      case Balanced => 0.25
      case Precise => 0.4
    }
  }

  /**
   * The store. `searching` is `searchActiveAtom` (what `searchAtom` reads),
   * `movies` is `moviesAtom`: whatever JSON value the last completed search
   * produced, stored without any shape check.
   */
  datatype State = State(
    query: string,
    searching: bool,
    movies: Json,
    confidence: Confidence,
    sorting: SortOrder)

  /** The store as the page starts. */
  const Initial: State := State("", false, EmptyArray, Balanced, RelDesc)

  /** One webhook call issued by SEARCH; it carries the query read at dispatch. */
  datatype Request = Request(query: string) {
    /** The URL this request fetches. */
    function Url(): string {
      WebhookUrl(query)
    }
  }

  /** The synchronous part of a write: the new store and the request, if any, issued. */
  datatype Effect = Effect(state: State, request: Option<Request>)

  const WebhookPrefix: string :=
    "https://steveykyu.app.n8n.cloud/webhook/73551d63-6381-4a73-bfde-164e6e3ccf6d?query="

  /** The webhook URL: the query is interpolated raw, without percent-encoding. */
  function WebhookUrl(query: string): (url: string)
    ensures |url| == |WebhookPrefix| + |query|
    ensures url[..|WebhookPrefix|] == WebhookPrefix
    ensures url[|WebhookPrefix|..] == query
  {
    WebhookPrefix + query
  }

  /** Distinct queries reach the webhook as distinct URLs. */
  lemma WebhookUrlInjective(a: string, b: string)
    requires WebhookUrl(a) == WebhookUrl(b)
    ensures a == b
  {
    assert a == WebhookUrl(a)[|WebhookPrefix|..];
  }

  /**
   * Because nothing is escaped, URL syntax in the query reaches the webhook
   * as URL syntax: a query `q&x` yields the URL of the query `q` followed by
   * the extra text `&x`, which the webhook reads as further parameters.
   */
  lemma RawQueryNotEscaped(q: string, x: string)
    ensures WebhookUrl(q + "&" + x) == WebhookUrl(q) + "&" + x
  {
  }

  /** `data.output?.output` for a non-null `data`; `None` is `undefined`. */
  function OutputOutput(data: Json): (r: Option<Json>)
    requires !data.Null?
    ensures r == (if data.Object? && "output" in data.fields
                     && data.fields["output"].Object? && "output" in data.fields["output"].fields
                  then Some(data.fields["output"].fields["output"]) else None)
  {
    match Member(data, "output")
    case None => None
    case Some(inner) => if inner.Null? then None else Member(inner, "output")
  }

  /**
   * `searchHandler`: what a settled webhook call yields. A rejected fetch, a
   * non-ok status, a body that does not parse and a `null` body (reading
   * `.output` of it throws) all end in the catch and yield `[]`; otherwise
   * `data.output?.output || []`.
   */
  function SearchHandler(o: Outcome): (r: Json)
    ensures Truthy(r)
    ensures !Delivered(o) ==> r == EmptyArray
    ensures Delivered(o) && o.body.value.Null? ==> r == EmptyArray
    ensures Delivered(o) && !o.body.value.Null? && OutputOutput(o.body.value).Some?
            && Truthy(OutputOutput(o.body.value).value)
            ==> r == OutputOutput(o.body.value).value
    ensures r != EmptyArray
            ==> Delivered(o) && !o.body.value.Null? && OutputOutput(o.body.value) == Some(r)
  {
    match o
    case Threw => EmptyArray
    case Responded(status, body) =>
      if !IsOk(status) then EmptyArray
      else match body
        case None => EmptyArray
        case Some(data) =>
          if data.Null? then EmptyArray
          else match OutputOutput(data)
            case None => EmptyArray
            case Some(v) => if Truthy(v) then v else EmptyArray
  }

  /** The RESET branch of `searchAtom`: not busy, no results, query kept. */
  function ResetStore(s: State): (r: State)
    ensures !r.searching && r.movies == EmptyArray
    ensures r.query == s.query && r.confidence == s.confidence && r.sorting == s.sorting
  {
    s.(searching := false, movies := EmptyArray)
  }

  /** RESET twice is RESET once. */
  lemma ResetIdempotent(s: State)
    ensures ResetStore(ResetStore(s)) == ResetStore(s)
  {
  }

  /**
   * The write of `searchAtom` up to its `await`. SEARCH with an empty query
   * returns at once: nothing changes and nothing is fetched. SEARCH with a
   * query raises the busy flag and issues one request for that query, leaving
   * the results alone until it completes. RESET is synchronous.
   */
  function Write(s: State, a: Action): (r: Effect)
    ensures a == Search && s.query == "" ==> r == Effect(s, None)
    ensures a == Search && s.query != "" ==>
              r.state == s.(searching := true) && r.request == Some(Request(s.query))
    ensures a == Reset ==> r == Effect(ResetStore(s), None)
    ensures r.request.Some? ==> r.request.value.query != ""
    ensures r.request.Some? ==> r.request.value.Url() == WebhookUrl(s.query)
    ensures r.state.query == s.query
  {
    match a
    case Search =>
      if |s.query| == 0 then Effect(s, None)
      else Effect(s.(searching := true), Some(Request(s.query)))
    case Reset => Effect(ResetStore(s), None)
  }

  /**
   * The rest of SEARCH once its request settles with outcome `o`: the results
   * become the handler's output and the busy flag drops, whatever happened to
   * the store in the meantime. The query and the other atoms are untouched.
   */
  function Complete(s: State, o: Outcome): (r: State)
    ensures r.movies == SearchHandler(o) && !r.searching
    ensures r.query == s.query && r.confidence == s.confidence && r.sorting == s.sorting
    ensures Truthy(r.movies)
  {
    s.(movies := SearchHandler(o), searching := false)
  }

  /**
   * Last resolved wins: a completion that lands after a RESET, or after
   * another completion, overwrites the results all the same.
   */
  lemma CompleteOverwrites(s: State, t: State, o: Outcome)
    requires s.query == t.query && s.confidence == t.confidence && s.sorting == t.sorting
    ensures Complete(s, o) == Complete(t, o)
    ensures Complete(ResetStore(s), o) == Complete(s, o)
  {
  }

  /**
   * The write of `queryAtom`: assigning `""` performs RESET first, so the
   * results are empty and the flag is down whatever the prior store; any
   * other text changes the query alone.
   */
  function SetQuery(s: State, q: string): (r: State)
    ensures r.query == q
    ensures q == "" ==> !r.searching && r.movies == EmptyArray
    ensures q != "" ==> r == s.(query := q)
    ensures r.confidence == s.confidence && r.sorting == s.sorting
  {
    var before := if q == "" then Write(s, Reset).state else s;
    before.(query := q)
  }

  /** Clearing the query lands in the same store as RESET followed by storing `""`. */
  lemma ClearQueryIsReset(s: State)
    ensures SetQuery(s, "") == ResetStore(s).(query := "")
    ensures SetQuery(SetQuery(s, ""), "") == SetQuery(s, "")
  {
  }

  /** `confidenceLevelAtom`'s setter: a plain overwrite. */
  function SetConfidence(s: State, c: Confidence): (r: State)
    ensures r.confidence == c
    ensures r.(confidence := s.confidence) == s
  {
    s.(confidence := c)
  }

  /** `sortingOrderAtom`'s setter: a plain overwrite. */
  function SetSorting(s: State, o: SortOrder): (r: State)
    ensures r.sorting == o
    ensures r.(sorting := s.sorting) == s
  {
    s.(sorting := o)
  }

  /** The store starts with an empty query, the flag down and no results. */
  lemma InitialIsIdle()
    ensures Initial.query == "" && !Initial.searching && Initial.movies == EmptyArray
    ensures Write(Initial, Search) == Effect(Initial, None)
  {
  }

  /** Distinct sort choices and precision buttons store distinct values. */
  lemma CodesDistinct(a: SortOrder, b: SortOrder, c: Confidence, d: Confidence)
    ensures a.Code() == b.Code() ==> a == b
    ensures c.Level() == d.Level() ==> c == d
  {
  }
}
