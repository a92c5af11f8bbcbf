/**
 * The App component itself: an object whose state fields its handlers update
 * in place. Each handler sets the fields its `setState` call names and leaves
 * the rest alone; its contract ties the new state to the matching transition
 * of `AppState`, where the properties of each handler are proved.
 */
module AppComponent {
  import opened Entities
  import AppState

  class App {
    var movies: seq<Movie>
    var selectedMovie: Option<Movie>
    var customers: seq<Customer>
    var rentals: seq<Rental>
    var selectedCustomer: Option<Customer>
    var selectedRental: Option<Rental>
    var error: Option<string>
    var alertText: Option<string>
    var alertVariant: Option<Variant>
    var detailsMovie: Option<Movie>

    /** The component's state as one value. */
    function Snapshot(): (s: AppState.State)
      reads this
    {
      AppState.State(movies, selectedMovie, customers, rentals, selectedCustomer,
                     selectedRental, error, alertText, alertVariant, detailsMovie)
    }

    constructor ()
      ensures Snapshot() == AppState.Initial
      ensures AppState.Valid(Snapshot())
    {
      movies, selectedMovie := [], None;
      customers, rentals := [], [];
      selectedCustomer, selectedRental := None, None;
      error, alertText, alertVariant := None, None, None;
      detailsMovie := None;
    }

    /** `componentDidMount`: the completion of `GET /customers`. */
    method CustomersLoaded(f: Fetch<Customer>)
      modifies this
      ensures Snapshot() == AppState.CustomersLoaded(old(Snapshot()), f)
    {
      match f
      case Fetched(list) =>
        customers := list;
        error := None;
      case FetchFailed(msg) =>
        error := Some(msg);
    }

    /** `componentDidMount`: the completion of `GET /movies`. */
    method MoviesLoaded(f: Fetch<Movie>)
      modifies this
      ensures Snapshot() == AppState.MoviesLoaded(old(Snapshot()), f)
    {
      match f
      case Fetched(list) =>
        movies := list;
        error := None;
      case FetchFailed(msg) =>
        error := Some(msg);
    }

    /** `componentDidMount`: the completion of `GET /rentals`. */
    method RentalsLoaded(f: Fetch<Rental>)
      modifies this
      ensures Snapshot() == AppState.RentalsLoaded(old(Snapshot()), f)
    {
      match f
      case Fetched(list) =>
        rentals := list;
        error := None;
      case FetchFailed(msg) =>
        error := Some(msg);
    }

    /** `addMovie`: the duplicate guard, then the POST and its two branches. */
    method AddMovie(m: Movie, o: Outcome) returns (ghost effect: AppState.Effect)
      modifies this
      ensures Snapshot() == AppState.AddMovie(old(Snapshot()), m, o).state
      ensures effect == AppState.AddMovie(old(Snapshot()), m, o).effect
    {
      if FindMovie(movies, m.externalId).None? {
        effect := AppState.Sent(Post("/movies", MovieBody(m)));
        match o
        case Resolved =>
          movies := movies + [m];
          alertText := Some(AppState.MovieAddedText);
          alertVariant := Some(Success);
        case Rejected(msg) =>
          error := Some(msg);
          alertText := Some(msg);
          alertVariant := Some(Danger);
      } else {
        effect := AppState.Quiet;
        alertText := Some(AppState.DuplicateMovieText);
        alertVariant := Some(Danger);
      }
    }

    /** `selectMovie`: stores whatever the lookup returns, unset included. */
    method SelectMovie(movieId: int)
      modifies this
      ensures Snapshot() == AppState.SelectMovie(old(Snapshot()), movieId)
    {
      selectedMovie := FindMovie(movies, movieId);
    }

    /** `selectCustomer`: stores whatever the lookup returns, unset included. */
    method SelectCustomer(customerId: int)
      modifies this
      ensures Snapshot() == AppState.SelectCustomer(old(Snapshot()), customerId)
    {
      selectedCustomer := FindCustomer(customers, customerId);
    }

    /** `createRental`: guarded on a selected movie only; `today` stands for
        the clock the due date is computed from. */
    method CreateRental(o: Outcome, today: int) returns (ghost effect: AppState.Effect)
      modifies this
      ensures Snapshot() == AppState.CreateRental(old(Snapshot()), o, today).state
      ensures effect == AppState.CreateRental(old(Snapshot()), o, today).effect
    {
      effect := AppState.Quiet;
      if selectedMovie.Some? {
        var movieTitle := selectedMovie.value.title;
        if selectedCustomer.None? {
          // `this.state.selectedCustomer.id` throws: nothing is sent or set.
          effect := AppState.Crash;
          return;
        }
        var customerId := selectedCustomer.value.id;
        effect := AppState.Sent(Post(AppState.CheckOutPath(movieTitle), CheckOutBody(customerId, today + 1)));
        match o
        case Resolved =>
          selectedMovie, selectedCustomer := None, None;
          error := None;
          alertText := Some(AppState.RentalCreatedText);
          alertVariant := Some(Success);
        case Rejected(msg) =>
          error := Some(msg);
          alertText := Some(AppState.ErrorPrefix + msg);
          alertVariant := Some(Danger);
      }
    }

    /** `returnRental(movie, customer)`: the POST and its two branches. */
    method ReturnRental(movie: Movie, customer: Customer, o: Outcome) returns (ghost effect: AppState.Effect)
      modifies this
      ensures Snapshot() == AppState.ReturnRental(old(Snapshot()), movie, customer, o).state
      ensures effect == AppState.ReturnRental(old(Snapshot()), movie, customer, o).effect
    {
      effect := AppState.Sent(Post(AppState.ReturnPath(movie.title), ReturnBody(customer.id, movie.id)));
      match o
      case Resolved =>
        selectedMovie, selectedCustomer := None, None;
        error := None;
        alertText := Some(AppState.RentalReturnedText);
        alertVariant := Some(Success);
      case Rejected(msg) =>
        error := Some(msg);
        alertText := Some(AppState.ErrorPrefix + msg);
        alertVariant := Some(Danger);
    }

    /** `detailsCallback`: the toggle over the one detail slot. */
    method DetailsCallback(movieId: int)
      modifies this
      ensures Snapshot() == AppState.DetailsCallback(old(Snapshot()), movieId)
    {
      if detailsMovie.Some? && detailsMovie.value.externalId == movieId {
        detailsMovie := None;
      } else {
        detailsMovie := FindMovie(movies, movieId);
      }
    }

    /** The alert's `onClose`. */
    method DismissAlert()
      modifies this
      ensures Snapshot() == AppState.DismissAlert(old(Snapshot()))
    {
      alertText, alertVariant := None, None;
    }
  }
}
