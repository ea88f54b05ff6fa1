/**
 * A page session: the search bar's events and the arrival of webhook answers,
 * interleaved in any order. Every SEARCH that issues a request leaves it in
 * flight until an `Arrive` step settles it; nothing cancels or orders the
 * requests, so overlapping searches and a RESET in between are all
 * expressible, and the last answer to arrive is the one the store keeps.
 */
module SearchSession {
  import opened Optional
  import opened Json
  import opened Fetch
  import opened SearchAtoms
  import opened SearchBar

  datatype Session = Session(paging: Paging, store: State, inFlight: seq<Request>)

  const Start: Session := Session(InitialPaging, Initial, [])

  /** A UI event, or the answer to the in-flight request at `index`. */
  datatype Step = User(event: Event) | Arrive(index: nat, outcome: Outcome)

  /** One step; an arrival naming no request in flight changes nothing. */
  function Next(t: Session, step: Step): (r: Session)
    ensures r.paging == t.paging
    ensures step.Arrive? && step.index < |t.inFlight| ==>
              r.store == Complete(t.store, step.outcome) && |r.inFlight| == |t.inFlight| - 1
    ensures step.Arrive? && step.index >= |t.inFlight| ==> r == t
    ensures step.User? ==> r.store == React(t.paging, t.store, step.event).state
    ensures step.User? ==>
              r.inFlight == t.inFlight + (if React(t.paging, t.store, step.event).request.Some?
                                          then [React(t.paging, t.store, step.event).request.value]
                                          else [])
    ensures step.Arrive? && step.index < |t.inFlight| ==>
              r.inFlight == t.inFlight[..step.index] + t.inFlight[step.index + 1..]
  {
    match step
    case User(e) =>
      var re := React(t.paging, t.store, e);
      var issued := if re.request.Some? then [re.request.value] else [];
      Session(t.paging, re.state, t.inFlight + issued)
    case Arrive(i, o) =>
      if i < |t.inFlight| then
        Session(t.paging, Complete(t.store, o), t.inFlight[..i] + t.inFlight[i + 1..])
      else t
  }

  /** The session after a run of steps, taken left to right. */
  function Run(t: Session, steps: seq<Step>): Session
    decreases |steps|
  {
    if |steps| == 0 then t else Run(Next(t, steps[0]), steps[1..])
  }

  /**
   * What every reachable session satisfies: the paging never moves off its
   * initial values; the busy flag is up only while some request is in
   * flight; every request in flight was issued for a non-empty query; and
   * the stored results are never a falsy value.
   */
  predicate Invariant(t: Session) {
    && t.paging == InitialPaging
    && (t.store.searching ==> |t.inFlight| > 0)
    && (forall i :: 0 <= i < |t.inFlight| ==> t.inFlight[i].query != "")
    && Truthy(t.store.movies)
  }

  lemma StartInvariant()
    ensures Invariant(Start)
    ensures Start.store.query == "" && !Start.store.searching && Start.store.movies == EmptyArray
  {
  }

  /** One step keeps the invariant; it follows from the contracts of `Next`, `React` and `Complete`. */
  lemma NextInvariant(t: Session, step: Step)
    requires Invariant(t)
    ensures Invariant(Next(t, step))
  {
  }

  /** The invariant holds after any run from a session that satisfies it. */
  lemma {:induction false} RunInvariant(t: Session, steps: seq<Step>)
    requires Invariant(t)
    ensures Invariant(Run(t, steps))
    decreases |steps|
  {
    if |steps| > 0 {
      NextInvariant(t, steps[0]);
      RunInvariant(Next(t, steps[0]), steps[1..]);
    }
  }

  /** Once nothing is in flight the busy flag is down. */
  lemma QuiescentIsIdle(steps: seq<Step>)
    requires |Run(Start, steps).inFlight| == 0
    ensures !Run(Start, steps).store.searching
  {
    StartInvariant();
    RunInvariant(Start, steps);
  }

  /** A run extended by one step is that step applied to the run. */
  lemma {:induction false} RunSnoc(t: Session, steps: seq<Step>, last: Step)
    ensures Run(t, steps + [last]) == Next(Run(t, steps), last)
    decreases |steps|
  {
    if |steps| == 0 {
      assert steps + [last] == [last];
      assert Run(Next(t, last), []) == Next(t, last);
    } else {
      assert (steps + [last])[0] == steps[0];
      assert (steps + [last])[1..] == steps[1..] + [last];
      RunSnoc(Next(t, steps[0]), steps[1..], last);
    }
  }

  /**
   * Last resolved wins: whatever came before (other searches, a RESET, a
   * cleared query), the answer that arrives last decides the results and
   * leaves the flag down.
   */
  lemma LastArrivalWins(t: Session, steps: seq<Step>, i: nat, o: Outcome)
    requires i < |Run(t, steps).inFlight|
    ensures Run(t, steps + [Arrive(i, o)]).store.movies == SearchHandler(o)
    ensures !Run(t, steps + [Arrive(i, o)]).store.searching
  {
    RunSnoc(t, steps, Arrive(i, o));
  }

  /**
   * The race in one picture: type a query, press Enter, press Escape, and
   * the late answer still fills the results under an empty query.
   */
  lemma LateAnswerAfterEscape(o: Outcome)
    ensures var t := Run(Start, [User(Typed("widget")), User(KeyDown("Enter")),
                                 User(KeyDown("Escape")), Arrive(0, o)]);
            t.store.query == "" && t.store.movies == SearchHandler(o) && t.inFlight == []
  {
    var t1 := Next(Start, User(Typed("widget")));
    var t2 := Next(t1, User(KeyDown("Enter")));
    assert t2.inFlight == [Request("widget")] && t2.store.searching;
    var t3 := Next(t2, User(KeyDown("Escape")));
    assert t3.store.query == "" && t3.store.movies == EmptyArray && t3.inFlight == [Request("widget")];
    var t4 := Next(t3, Arrive(0, o));
    assert Run(t4, []) == t4;
    assert Run(t3, [Arrive(0, o)]) == t4;
    assert Run(t2, [User(KeyDown("Escape")), Arrive(0, o)]) == t4;
    assert Run(t1, [User(KeyDown("Enter")), User(KeyDown("Escape")), Arrive(0, o)]) == t4;
  }

  /**
   * A sort change while results are showing: Enter sends one search, the
   * sort choice sends a second for the same query, and whichever of the two
   * is answered second decides the results, in either arrival order.
   */
  lemma SortChangeRace(t: Session, order: SortOrder, i: nat, first: Outcome, second: Outcome)
    requires t.store.query != "" && HasResults(t.store.movies)
    requires i < 2
    ensures var q := t.store.query;
            var t2 := Run(t, [User(KeyDown("Enter")), User(SortSelected(order))]);
            t2.inFlight == t.inFlight + [Request(q), Request(q)] && t2.store.sorting == order
    ensures var n := |t.inFlight|;
            var t4 := Run(t, [User(KeyDown("Enter")), User(SortSelected(order)),
                              Arrive(n + i, first), Arrive(n, second)]);
            t4.store.movies == SearchHandler(second) && !t4.store.searching
            && t4.inFlight == t.inFlight && t4.store.sorting == order
  {
    var q, n := t.store.query, |t.inFlight|;
    var t1 := Next(t, User(KeyDown("Enter")));
    assert t1.inFlight == t.inFlight + [Request(q)] && t1.store.movies == t.store.movies;
    var t2 := Next(t1, User(SortSelected(order)));
    assert t2.inFlight == t.inFlight + [Request(q), Request(q)];
    var t3 := Next(t2, Arrive(n + i, first));
    assert t3.inFlight == t.inFlight + [Request(q)];
    var t4 := Next(t3, Arrive(n, second));
    assert t4.inFlight == t.inFlight;
    assert Run(t2, []) == t2;
    assert Run(t1, [User(SortSelected(order))]) == t2;
    assert Run(t, [User(KeyDown("Enter")), User(SortSelected(order))]) == t2;
    assert Run(t4, []) == t4;
    assert Run(t3, [Arrive(n, second)]) == t4;
    assert Run(t2, [Arrive(n + i, first), Arrive(n, second)]) == t4;
    assert Run(t1, [User(SortSelected(order)), Arrive(n + i, first), Arrive(n, second)]) == t4;
  }
}
