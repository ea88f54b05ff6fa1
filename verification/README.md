# PolyKteo search front end — a Dafny model

This project models the logic of the PolyKteo demo front end, a Next.js page
for searching patents and technology listings. It covers three pieces:

- **The search store** (`atoms/search-atoms.ts`). The store holds the query
  text, a busy flag and the stored results. It also holds the confidence and
  sort atoms that the search bar imports from it. It has two actions,
  SEARCH and RESET, and setting the query to `""` performs RESET.
  SEARCH is split at its one `await`:
  - `SearchAtoms.Write` is the synchronous part: the empty-query check,
    raising the busy flag and issuing the webhook request.
  - `SearchAtoms.Complete` is the continuation that runs when the request
    settles.
  - `SearchAtoms.SearchHandler` maps the settled request to the stored value
    (`data.output?.output || []`, with `[]` on every failure path).
- **The search bar's handlers** (`components/search-bar.tsx`).
  `SearchBar.React` maps one UI event (a key, typing, the Search button, a
  precision button, a sort choice) to its effect on the store, and records
  any SEARCH it dispatches with the arguments it passes.
- **The proxy route** (`app/api/search/route.ts`). `SearchRoute.Get` does the
  parameter defaulting, the missing-query guard and the assembly of the
  upstream URL. It then maps the upstream outcome to a response: the error
  envelope, the upstream body verbatim, or a 500.

`SearchSession` puts the store and the search bar together. A run is any
interleaving of UI events and webhook answers. The module proves an
invariant of every reachable session and the last-resolved-wins behaviour
of overlapping searches.

Parsed JSON is a `Json` datatype (null, booleans, numbers, strings, arrays,
objects), with JavaScript truthiness and member reads. This lets the model
follow `data.output?.output || []` exactly. A network request is an
`Outcome`: either it threw, or it got a status and a body that did or did
not parse. Where the parsed body is `null`, reading `.output` throws and the
catch returns `[]`. Any truthy non-array value at `output.output` is stored
as it is, because the code checks nothing.

The atoms `confidenceLevelAtom` and `sortingOrderAtom` are imported by the
search bar but are not defined in the atoms file. They are modelled as plain
fields with overwrite setters. Their initial values are taken as Balanced (0.25) and
`REL_DESC`, the defaults the proxy route uses. Confidence is an enum
of the three values the precision buttons store (0, 0.25, 0.4), not a float.

The store has no normalised result record and no pagination metadata: it
keeps whatever `data.output?.output` holds, and so does the model. The webhook
call in the store also takes only the query: the sort, page and size the
search bar passes with SEARCH are dropped by the writer, and the confidence
level is never sent. The query is put into the webhook URL without
percent-encoding (`SearchAtoms.RawQueryNotEscaped`). The proxy route, which
does encode its query, is not called by the store. The route's four other
parameters are decoded by its own parameter parsing and then put into the
upstream URL unescaped (`SearchRoute.SettingsNotEscaped`), so the five
`key=value` pieces describe how the string is joined, not what the upstream
service parses out of it.

## Model

| member | source | states |
|---|---|---|
| SearchAtoms.SearchHandler | atoms/search-atoms.ts:10-22 | The stored value is never falsy. A threw, non-ok, unparsable or null response yields `[]`. Otherwise it is `data.output.output` when that is truthy, and `[]` when it is missing or falsy. |
| SearchAtoms.WebhookUrl | atoms/search-atoms.ts:12 | The webhook URL is the fixed prefix followed by the raw query, unencoded. |
| SearchAtoms.WebhookUrlInjective | atoms/search-atoms.ts:12 | The request depends on the query alone: distinct queries give distinct URLs. |
| SearchAtoms.RawQueryNotEscaped | atoms/search-atoms.ts:12 | URL syntax in the query is not escaped: for every `q` and `x`, the query `q&x` yields the URL for `q` followed by the extra text `&x`. |
| SearchAtoms.OutputOutput | atoms/search-atoms.ts:17 | `data.output?.output` is the inner `output` member exactly when `data` has an object `output` member that has its own `output` member. Otherwise it is `undefined`. |
| SearchAtoms.ResetStore | atoms/search-atoms.ts:46-49 | RESET lowers the busy flag and empties the results. The query and the other atoms are kept. |
| SearchAtoms.ResetIdempotent | atoms/search-atoms.ts:46-49 | Applying RESET twice equals applying it once. |
| SearchAtoms.Write | atoms/search-atoms.ts:33-51 | SEARCH with an empty query changes nothing and issues no request. SEARCH with a query raises the busy flag and issues one request for exactly that query, whose URL is the webhook URL for it, leaving the results alone. RESET is the reset above. No request is ever issued for an empty query. |
| SearchAtoms.Complete | atoms/search-atoms.ts:42-44 | A completing SEARCH stores the handler's output and lowers the flag. The query and the other atoms are unchanged. |
| SearchAtoms.CompleteOverwrites | atoms/search-atoms.ts:42-48 | Last resolved wins: a completion's effect does not depend on the prior results or flag. It overwrites a RESET that came in between. |
| SearchAtoms.SetQuery | atoms/search-atoms.ts:26-31 | The query becomes exactly the assigned text. Assigning `""` also leaves no results and the flag down, whatever the prior store. Any other text changes only the query. |
| SearchAtoms.ClearQueryIsReset | atoms/search-atoms.ts:26-31 | Clearing the query equals RESET followed by storing `""`, and clearing twice equals clearing once. |
| SearchAtoms.SetConfidence | components/search-bar.tsx:11 | The confidence setter overwrites that field and nothing else. |
| SearchAtoms.SetSorting | components/search-bar.tsx:12 | The sort setter overwrites that field and nothing else. |
| SearchAtoms.InitialIsIdle | atoms/search-atoms.ts:24-54 | Initially the query is `""`, the flag is down and the results are `[]`. SEARCH in that state does nothing. |
| SearchAtoms.CodesDistinct | components/search-bar.tsx:127-132 | The six sort choices store six distinct codes. The three precision levels are distinct. |
| SearchRoute.OrDefault | app/api/search/route.ts:6-9 | The logical-or defaulting: a present non-empty value is kept. A missing or empty one becomes the default. |
| SearchRoute.Resolve | app/api/search/route.ts:6-9 | Each optional parameter is forwarded unchanged when present and non-empty. Otherwise it takes its default: `0.25`, `REL_DESC`, `1` or `10`. |
| SearchRoute.ResolveIdempotent | app/api/search/route.ts:6-9 | Resolving an already-resolved parameter set returns the same values. |
| SearchRoute.UpstreamUrl | app/api/search/route.ts:19 | The upstream URL is the search endpoint followed by five `key=value` pieces joined with `&` (a separate `QueryString` definition), in order: the encoded query, then the four settings verbatim. |
| SearchRoute.SettingsNotEscaped | app/api/search/route.ts:19 | The settings are interpolated unescaped: a page size reading `z&x` yields the URL for page size `z` followed by the extra text `&x`. |
| SearchRoute.OnlyQueryEncoded | app/api/search/route.ts:19 | Only the query passes through `encodeURIComponent`: encoders that agree on the query give the same URL. |
| SearchRoute.PlanRequest | app/api/search/route.ts:4-19 | The route answers at once with `{error: "No query provided"}` exactly when the query is missing or empty. Otherwise it forwards to the upstream URL. |
| SearchRoute.Respond | app/api/search/route.ts:27-39 | An ok response with a parsed body is returned verbatim with status 200. Every other outcome gives status 500 with the fixed message. Status 200 happens exactly when the body was delivered. |
| SearchRoute.FailuresIndistinguishable | app/api/search/route.ts:33-39 | No upstream detail leaks: all failures produce the same response. |
| SearchRoute.Get | app/api/search/route.ts:3-40 | The full handler returns the error envelope without a query, and the relayed upstream outcome with one. A 500 always carries the fixed message. |
| SearchRoute.NoQueryNoFetch | app/api/search/route.ts:11-13 | Without a query the result does not depend on the fetch: upstream is never contacted. |
| SearchBar.Dispatch | components/search-bar.tsx:20 | Dispatching SEARCH records its arguments. It issues a request exactly when the query is non-empty; then only the busy flag changes, otherwise nothing does. |
| SearchBar.DispatchIgnoresArguments | atoms/search-atoms.ts:35 | The sort, page and size passed with SEARCH affect neither the store nor the request. |
| SearchBar.React | components/search-bar.tsx:17-124 | Enter dispatches SEARCH with the current sort, page and size. Escape clears the query, which resets. Other keys do nothing. Typing stores exactly the input text, and typing `""` resets. The Search button dispatches page 1, and only while idle; a click while busy changes nothing. Enter or the button with an empty query leave the store as it was. A precision button stores its level. A sort choice is always stored and searches exactly when results are showing; when no request goes out (no results, or an empty query) it changes only the sort. No dispatch touches the results, and only a sort choice changes the sort. |
| SearchBar.HasResults | components/search-bar.tsx:121 | `results.length > 0` for an array or a string: it holds exactly when the array or string is non-empty, such a value is truthy, and the initial or reset `[]` never counts. An object's own `length` member is not modelled. |
| SearchSession.Next | atoms/search-atoms.ts:41-44 | An arrival for an in-flight request completes that SEARCH and removes exactly that request from the in-flight list. An arrival for no request changes nothing. A UI event applies the search bar's rule and appends the request it issued, if any, to the in-flight list. |
| SearchSession.StartInvariant | components/search-bar.tsx:13-14 | The session starts with page 1 and size 10, an empty query, the flag down and no results. |
| SearchSession.NextInvariant | atoms/search-atoms.ts:33-51 | One step preserves the invariant. The paging stays at 1 and 10. The flag is up only while a request is in flight. Every in-flight request has a non-empty query. The results are never falsy. |
| SearchSession.RunInvariant | atoms/search-atoms.ts:33-51 | Every run preserves that invariant. |
| SearchSession.QuiescentIsIdle | atoms/search-atoms.ts:41-47 | In any reachable session with nothing in flight, the busy flag is down. |
| SearchSession.LastArrivalWins | atoms/search-atoms.ts:42-48 | Whatever came before, the answer that arrives last decides the results and leaves the flag down. |
| SearchSession.LateAnswerAfterEscape | atoms/search-atoms.ts:26-48 | Type, press Enter, press Escape: the late answer still fills the results under an empty query. |
| SearchSession.SortChangeRace | components/search-bar.tsx:118-124 | With results showing, Enter and then a sort choice send two searches for the same query (the second from the sort handler). Whichever is answered second decides the results and lowers the flag, in either arrival order. |

## Left out

- Real HTTP, `response.json()` parsing, `NextResponse` and `console.error`. A request is reduced to an `Outcome` value: threw, or a status with a body that parsed or did not.
- `encodeURIComponent` is a parameter of the route, not interpreted. Its behaviour is fixed by the ECMAScript standard and section 2.1 of RFC 3986.
- JSON numbers are reals. Float arithmetic and precision are not modelled, and confidence is an enum of its three possible values.
- SearchBar.HasResults: a stored object with its own `length` member counts as showing no results, so `SearchBar.React` does not search on a sort change for it. JavaScript would compare that member with 0; only arrays and strings are given a length here, because the webhook is meant to return an array.
- Rendering: the spinner, the styles, the result cards (components/movies.tsx, components/movie.tsx) and the detail popup. The one rendering fact that gates an event is kept: the Search button exists only while idle, so a click while busy does nothing.
- The `SearchResult` record in types/search.ts. It has no behaviour, and the store keeps the raw JSON the webhook returns without checking its shape.
- app/layout.tsx, app/page.tsx, components/DifyChatbot.tsx and next.config.js. These are page layout, a third-party script embed and build configuration.
- Real concurrency and scheduling. Overlapping searches appear only as interleaved event and arrival steps in `SearchSession`. Subscription and re-render mechanics of the atom library are not modelled.
- The initial values of the confidence and sort atoms, because their definitions are not part of this model. They are taken as Balanced and `REL_DESC`.
