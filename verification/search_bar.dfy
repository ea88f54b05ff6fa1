/**
 * The event handlers of the search bar (components/search-bar.tsx), as
 * rules from one UI event and the current store to the store after the
 * handler's synchronous work. Rendering is not modelled; the one rendering
 * fact that gates an event (the Search button exists only while no search
 * is in flight) is.
 */
module SearchBar {
  import opened Optional
  import opened Json
  import opened SearchAtoms

  /** The component's own `useState` values; no handler ever changes them. */
  datatype Paging = Paging(currentPage: int, pageSize: int)

  const InitialPaging: Paging := Paging(1, 10)

  datatype Event =
    | KeyDown(key: string)
    | Typed(text: string)
    | SearchClicked
    | PrecisionClicked(level: Confidence)
    | SortSelected(order: SortOrder)

  /** The extra arguments the component passes along with SEARCH. */
  datatype SearchCall = SearchCall(sorting: SortOrder, page: int, size: int)

  /**
   * What one event does: the store afterwards, the SEARCH dispatch with its
   * arguments if there was one, and the webhook request that dispatch issued.
   */
  datatype Reaction = Reaction(state: State, call: Option<SearchCall>, request: Option<Request>)

  /**
   * `results.length > 0` for the value the store holds: only a non-empty
   * array or string has a positive length, and such a value is truthy, so
   * the initial or reset `[]` never counts as showing results.
   */
  function HasResults(movies: Json): (r: bool)
    ensures r <==> (movies.Array? && |movies.items| > 0) || (movies.Str? && |movies.s| > 0)
    ensures r ==> Truthy(movies)
    ensures movies == EmptyArray ==> !r
  {
    match movies
    case Array(items) => |items| > 0
    case Str(text) => |text| > 0
    case _ => false
  }

  /** The Search button is rendered in place of the spinner only while idle. */
  predicate SearchButtonShown(s: State) {
    !s.searching
  }

  /** `searchHandler(Action.SEARCH, ...)`: the writer takes the action alone and drops the rest. */
  function Dispatch(s: State, call: SearchCall): (r: Reaction)
    ensures r.call == Some(call)
    ensures r.state.movies == s.movies && r.state.query == s.query
    ensures r.request.Some? <==> s.query != ""
    ensures r.request.Some? ==> r.request.value == Request(s.query) && r.state.searching
    ensures r.request.None? ==> r.state == s
    ensures r.request.Some? ==> r.state == s.(searching := true)
  {
    var e := Write(s, Search);
    Reaction(e.state, Some(call), e.request)
  }

  /** The arguments passed with SEARCH have no effect on the store or on the request. */
  lemma DispatchIgnoresArguments(s: State, c1: SearchCall, c2: SearchCall)
    ensures Dispatch(s, c1).state == Dispatch(s, c2).state
    ensures Dispatch(s, c1).request == Dispatch(s, c2).request
  {
  }

  /**
   * The handlers. Enter dispatches SEARCH with the current sort, page and
   * size; Escape clears the query (and so performs RESET); other keys do
   * nothing. Typing stores the input text as the query. The Search button
   * dispatches SEARCH for page 1, and does nothing while a search is in
   * flight because it is not there to click. A precision button stores its
   * level. A sort choice is always stored, and dispatches SEARCH only when
   * results are showing.
   */
  function React(p: Paging, s: State, e: Event): (r: Reaction)
    ensures e == KeyDown("Enter") ==> r.call == Some(SearchCall(s.sorting, p.currentPage, p.pageSize))
    ensures e == KeyDown("Escape") ==>
              r.state.query == "" && !r.state.searching && r.state.movies == EmptyArray && r.call.None?
    ensures e.KeyDown? && e.key != "Enter" && e.key != "Escape" ==> r == Reaction(s, None, None)
    ensures e.Typed? ==> r.state.query == e.text && r.call.None? && r.request.None?
    ensures e.Typed? && e.text != "" ==> r.state.movies == s.movies && r.state.searching == s.searching
    ensures e == SearchClicked ==>
              (r.call.Some? <==> SearchButtonShown(s))
              && (r.call.Some? ==> r.call.value == SearchCall(s.sorting, 1, p.pageSize))
    ensures e.PrecisionClicked? ==> r == Reaction(s.(confidence := e.level), None, None)
    ensures e.SortSelected? ==> r.state.sorting == e.order
    ensures e.SortSelected? ==>
              (r.call.Some? <==> HasResults(s.movies))
              && (r.call.Some? ==> r.call.value == SearchCall(e.order, p.currentPage, p.pageSize))
    ensures r.call.None? ==> r.request.None?
    ensures r.call.Some? ==> r.state.query == s.query && (r.request.Some? <==> s.query != "")
    ensures r.request.Some? ==> r.request.value == Request(s.query) && r.state.searching
    ensures !e.PrecisionClicked? ==> r.state.confidence == s.confidence
    ensures !e.SortSelected? ==> r.state.sorting == s.sorting
    ensures e == Typed("") ==> r.state == SetQuery(s, "")
    ensures e == SearchClicked && !SearchButtonShown(s) ==> r == Reaction(s, None, None)
    ensures (e == KeyDown("Enter") || e == SearchClicked) && r.request.None? ==> r.state == s
    ensures e.SortSelected? && !HasResults(s.movies) ==> r == Reaction(s.(sorting := e.order), None, None)
    ensures r.call.Some? ==> r.state.movies == s.movies
    ensures e.SortSelected? && r.request.None? ==> r.state == s.(sorting := e.order)
  {
    match e
    case KeyDown(key) =>
      if key == "Enter" then Dispatch(s, SearchCall(s.sorting, p.currentPage, p.pageSize))
      else if key == "Escape" then Reaction(SetQuery(s, ""), None, None)
      else Reaction(s, None, None)
    case Typed(text) => Reaction(SetQuery(s, text), None, None)
    case SearchClicked =>
      if SearchButtonShown(s) then Dispatch(s, SearchCall(s.sorting, 1, p.pageSize))
      else Reaction(s, None, None)
    case PrecisionClicked(level) => Reaction(SetConfidence(s, level), None, None)
    case SortSelected(order) =>
      var sorted := SetSorting(s, order);
      if HasResults(s.movies) then Dispatch(sorted, SearchCall(order, p.currentPage, p.pageSize))
      else Reaction(sorted, None, None)
  }
}
