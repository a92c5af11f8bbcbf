/**
 * Properties of the App component that relate several handler calls: the
 * detail toggle applied twice, and the invariants kept over any sequence of
 * events the page can deliver.
 */
module AppTraces {
  import opened Entities
  import opened AppState

  /** One thing that can happen to the component: a user action with the way
      its request settles, or the completion of one of the three loads that
      `componentDidMount` starts. The loads complete independently, in any
      order, so each is an event of its own. */
  datatype Event =
    | OnCustomersLoaded(customers: Fetch<Customer>)
    | OnMoviesLoaded(movies: Fetch<Movie>)
    | OnRentalsLoaded(rentals: Fetch<Rental>)
    | OnAddMovie(movie: Movie, outcome: Outcome)
    | OnSelectMovie(movieId: int)
    | OnSelectCustomer(customerId: int)
    | OnCreateRental(outcome: Outcome, today: int)
    | OnReturnRental(movie: Movie, customer: Customer, outcome: Outcome)
    | OnDetails(detailsId: int)
    | OnAlertClose

  function Apply(s: State, e: Event): (r: State)
  {
    match e
    case OnCustomersLoaded(f) => CustomersLoaded(s, f)
    case OnMoviesLoaded(f) => MoviesLoaded(s, f)
    case OnRentalsLoaded(f) => RentalsLoaded(s, f)
    case OnAddMovie(m, o) => AddMovie(s, m, o).state
    case OnSelectMovie(id) => SelectMovie(s, id)
    case OnSelectCustomer(id) => SelectCustomer(s, id)
    case OnCreateRental(o, today) => CreateRental(s, o, today).state
    case OnReturnRental(m, c, o) => ReturnRental(s, m, c, o).state
    case OnDetails(id) => DetailsCallback(s, id)
    case OnAlertClose => DismissAlert(s)
  }

  /** The state after the events, in order. */
  function Run(s: State, es: seq<Event>): (r: State)
    decreases |es|
  {
    if es == [] then s else Run(Apply(s, es[0]), es[1..])
  }

  /** A successful load of movies or customers swaps the whole list; it is
      the only kind of event that can leave a selection or the detail view
      pointing outside its list. This holds when the event keeps them inside:
      the new library still holds the selected and the detailed movie, the
      new customer list the selected customer. Every other event keeps it. */
  predicate KeepsHeld(s: State, e: Event)
  {
    match e
    case OnMoviesLoaded(Fetched(list)) => Held(s.selectedMovie, list) && Held(s.detailsMovie, list)
    case OnCustomersLoaded(Fetched(list)) => Held(s.selectedCustomer, list)
    case _ => true
  }

  lemma InitialValid()
    ensures Valid(Initial)
  {
  }

  /** Every event keeps the invariant, except a list replacement that drops
      a selected or detailed entry. */
  lemma ApplyKeepsValid(s: State, e: Event)
    requires Valid(s) && KeepsHeld(s, e)
    ensures Valid(Apply(s, e))
  {
  }

  /** Whatever the user does, and however the three loads interleave with
      it, the selections and the detail view keep referring to entries of the
      lists and the alert stays consistent, as long as each list that a load
      replaces still holds the entries selected or detailed at that moment. */
  lemma {:induction false} RunKeepsValid(s: State, es: seq<Event>)
    requires Valid(s)
    requires forall i :: 0 <= i < |es| ==> KeepsHeld(Run(s, es[..i]), es[i])
    ensures Valid(Run(s, es))
    decreases |es|
  {
    if es != [] {
      assert es[..0] == [];
      ApplyKeepsValid(s, es[0]);
      var t, rest := Apply(s, es[0]), es[1..];
      forall i | 0 <= i < |rest|
        ensures KeepsHeld(Run(t, rest[..i]), rest[i])
      {
        assert es[..i + 1][0] == es[0] && es[..i + 1][1..] == rest[..i];
        assert rest[i] == es[i + 1];
      }
      RunKeepsValid(t, rest);
    }
  }

  /** The alert has a text exactly when it has a variant, after any sequence
      of events whatsoever, list replacements included. */
  lemma {:induction false} RunKeepsAlertConsistent(s: State, es: seq<Event>)
    requires AlertConsistent(s)
    ensures AlertConsistent(Run(s, es))
    decreases |es|
  {
    if es != [] {
      var t := Apply(s, es[0]);
      assert AlertConsistent(t) by {
        match es[0]
        case OnAddMovie(m, o) => assert AddMovie(s, m, o).state.alertText.Some?;
        case OnCreateRental(o, today) =>
        case OnReturnRental(m, c, o) => assert ReturnRental(s, m, c, o).state.alertText.Some?;
        case _ =>
      }
      RunKeepsAlertConsistent(t, es[1..]);
    }
  }

  /** A list replacement can orphan a selection: a movie added and selected
      before `GET /movies` completes is gone from a library that the backend
      returns without it, yet it stays selected. */
  lemma MoviesLoadCanOrphanSelection()
    ensures !KeepsHeld(SelectMovie(AddMovie(Initial, Movie(None, 7, "Dune"), Resolved).state, 7),
                       OnMoviesLoaded(Fetched([])))
    ensures var m := Movie(None, 7, "Dune");
            var s := SelectMovie(AddMovie(Initial, m, Resolved).state, 7);
            && Valid(s)
            && !Valid(MoviesLoaded(s, Fetched([])))
  {
  }

  /** The same holds of the detail view: a movie added and opened before
      `GET /movies` completes stays open after a library that lacks it. */
  lemma MoviesLoadCanOrphanDetails()
    ensures var m := Movie(None, 7, "Dune");
            var s := DetailsCallback(AddMovie(Initial, m, Resolved).state, 7);
            && Valid(s)
            && s.detailsMovie == Some(m)
            && !Valid(MoviesLoaded(s, Fetched([])))
  {
  }

  /** `detailsCallback(id)` twice in a row: when the view was not open on that
      id, the first call opens it on the first matching movie and the second
      closes it again, so the view ends unset; when it was open on that id, the
      first call closes it and the second reopens it on the first match. No
      other field changes. */
  lemma DetailsTwice(s: State, id: int)
    ensures var r := DetailsCallback(DetailsCallback(s, id), id);
            && r == s.(detailsMovie := r.detailsMovie)
            && r.detailsMovie == (if DetailsOpenOn(s, id) then FindMovie(s.movies, id) else None)
  {
  }

  /** When the "Create a Rental" button is visible, pressing it always sends a
      check-out request: the throw on an unset customer cannot be reached from
      the page. */
  lemma ButtonNeverCrashes(s: State, o: Outcome, today: int)
    requires RentalButtonShown(s)
    ensures CreateRental(s, o, today).effect.Sent?
  {
  }

  /** Adding a movie that is already in the library, however the backend
      would have answered, changes no list and sends nothing. */
  lemma DuplicateAddIsRefused(s: State, m: Movie, o: Outcome)
    requires exists i :: 0 <= i < |s.movies| && s.movies[i].externalId == m.externalId
    ensures AddMovie(s, m, o).effect.Quiet?
    ensures AddMovie(s, m, o).state == s.(alertText := Some(DuplicateMovieText), alertVariant := Some(Danger))
  {
  }

  /** A library holding "Dune", one customer, both selected, and a check-out
      the backend accepts: the POST goes to `/rentals/Dune/check-out` with the
      customer's id and tomorrow's date, and both selections are cleared. */
  lemma CheckOutScenario(today: int)
    ensures var dune := Movie(Some(1), 7, "Dune");
            var s := Run(Initial, [OnMoviesLoaded(Fetched([dune])),
                                   OnCustomersLoaded(Fetched([Customer(3, "Ada")])),
                                   OnSelectMovie(7), OnSelectCustomer(3)]);
            var r := CreateRental(s, Resolved, today);
            && r.effect == Sent(Post("/rentals/Dune/check-out", CheckOutBody(3, today + 1)))
            && r.state.selectedMovie.None? && r.state.selectedCustomer.None?
            && r.state.alertVariant == Some(Success)
  {
    var dune := Movie(Some(1), 7, "Dune");
    var ada := Customer(3, "Ada");
    var s1 := MoviesLoaded(Initial, Fetched([dune]));
    var s2 := CustomersLoaded(s1, Fetched([ada]));
    assert FindMovie(s2.movies, 7) == Some(dune);
    var s3 := SelectMovie(s2, 7);
    assert FindCustomer(s3.customers, 3) == Some(ada);
    var s4 := SelectCustomer(s3, 3);
    var es := [OnMoviesLoaded(Fetched([dune])), OnCustomersLoaded(Fetched([ada])),
               OnSelectMovie(7), OnSelectCustomer(3)];
    calc {
      Run(Initial, es);
      Run(s1, es[1..]);
      { assert es[1..][1..] == es[2..]; }
      Run(s2, es[2..]);
      { assert es[2..][1..] == es[3..]; }
      Run(s3, es[3..]);
      { assert es[3..][1..] == []; }
      s4;
    }
    assert CheckOutPath("Dune") == "/rentals/Dune/check-out";
  }
}
