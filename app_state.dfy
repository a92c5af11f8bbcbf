/**
 * The App component's state object and what each of its handlers does to it,
 * as pure transitions. React's `setState` merges: a handler names the fields
 * it sets and every other field keeps its value, so each transition below
 * says which fields it may change and what they become.
 *
 * A handler that talks to the backend is given the way its request settles
 * (an `Outcome` or a `Fetch`) and applies the matching branch; the request it
 * would have sent comes back as its `Effect`.
 */
module AppState {
  import opened Entities

  /** The fields of `this.state`. */
  datatype State = State(
    movies: seq<Movie>,
    selectedMovie: Option<Movie>,
    customers: seq<Customer>,
    rentals: seq<Rental>,
    selectedCustomer: Option<Customer>,
    selectedRental: Option<Rental>,
    error: Option<string>,
    alertText: Option<string>,
    alertVariant: Option<Variant>,
    detailsMovie: Option<Movie>)

  /** The state the constructor sets: empty lists, everything else unset. */
  const Initial: State := State([], None, [], [], None, None, None, None, None, None)

  const MovieAddedText := "Movie added to your rental library"
  const DuplicateMovieText := "Movie cannot be added to the libaray, it already exists in library"
  const RentalCreatedText := "Rental successfully created"
  const RentalReturnedText := "Movie successfully rented"
  const ErrorPrefix := "An error occurred: "

  /** What a handler does besides changing the state: nothing, send one
      request, or throw (reading `id` of an unset customer). */
  datatype Effect = Quiet | Sent(request: Request) | Crash

  datatype Step = Step(state: State, effect: Effect)

  function CheckOutPath(title: string): (path: string) { "/rentals/" + title + "/check-out" }

  function ReturnPath(title: string): (path: string) { "/rentals/" + title + "/return" }

  /** An optional slot holds an element of the list, or nothing. */
  predicate Held<T(==)>(slot: Option<T>, xs: seq<T>)
  {
    slot.Some? ==> slot.value in xs
  }

  /** The alert slot: it has a text exactly when it has a variant. */
  predicate AlertConsistent(s: State)
  {
    s.alertText.Some? <==> s.alertVariant.Some?
  }

  /** What the handlers keep: the selected movie, the selected customer and the
      movie whose details are open are entries of the lists they were looked up
      in, no rental is ever selected, and the alert slot is consistent. */
  predicate Valid(s: State)
  {
    && Held(s.selectedMovie, s.movies)
    && Held(s.detailsMovie, s.movies)
    && Held(s.selectedCustomer, s.customers)
    && s.selectedRental.None?
    && AlertConsistent(s)
  }

  /** The completion of `GET /customers`: success replaces the customer list
      and clears `error`; failure records the message in `error` only. */
  function CustomersLoaded(s: State, f: Fetch<Customer>): (r: State)
    ensures r == s.(customers := r.customers, error := r.error)
    ensures f.Fetched? ==> r.customers == f.data && r.error.None?
    ensures f.FetchFailed? ==> r.customers == s.customers && r.error == Some(f.message)
    ensures AlertConsistent(s) ==> AlertConsistent(r)
    ensures Valid(s) && Held(s.selectedCustomer, r.customers) ==> Valid(r)
  {
    match f
    case Fetched(list) => s.(customers := list, error := None)
    case FetchFailed(msg) => s.(error := Some(msg))
  }

  /** The completion of `GET /movies`, as for the customers. */
  function MoviesLoaded(s: State, f: Fetch<Movie>): (r: State)
    ensures r == s.(movies := r.movies, error := r.error)
    ensures f.Fetched? ==> r.movies == f.data && r.error.None?
    ensures f.FetchFailed? ==> r.movies == s.movies && r.error == Some(f.message)
    ensures AlertConsistent(s) ==> AlertConsistent(r)
    ensures Valid(s) && Held(s.selectedMovie, r.movies) && Held(s.detailsMovie, r.movies) ==> Valid(r)
  {
    match f
    case Fetched(list) => s.(movies := list, error := None)
    case FetchFailed(msg) => s.(error := Some(msg))
  }

  /** The completion of `GET /rentals`, as for the customers. Nothing refers
      to a rental, so it keeps the invariant whatever it loads. */
  function RentalsLoaded(s: State, f: Fetch<Rental>): (r: State)
    ensures r == s.(rentals := r.rentals, error := r.error)
    ensures f.Fetched? ==> r.rentals == f.data && r.error.None?
    ensures f.FetchFailed? ==> r.rentals == s.rentals && r.error == Some(f.message)
    ensures Valid(s) ==> Valid(r)
  {
    match f
    case Fetched(list) => s.(rentals := list, error := None)
    case FetchFailed(msg) => s.(error := Some(msg))
  }

  /** `addMovie`: a movie whose external id is already in the library is
      refused on the spot with a danger alert and no request. Otherwise it is
      posted to `/movies`; on success it is appended to the library, where it
      then occurs exactly once, with a success alert; on failure the library
      is unchanged and the message goes to `error` and to a danger alert. */
  function AddMovie(s: State, m: Movie, o: Outcome): (r: Step)
    ensures r.state == s.(movies := r.state.movies, error := r.state.error,
                          alertText := r.state.alertText, alertVariant := r.state.alertVariant)
    ensures r.effect.Sent? <==> FindMovie(s.movies, m.externalId).None?
    ensures r.effect.Sent? ==> r.effect.request == Post("/movies", MovieBody(m))
    ensures r.effect.Quiet? ==>
              && r.state.movies == s.movies && r.state.error == s.error
              && r.state.alertText == Some(DuplicateMovieText) && r.state.alertVariant == Some(Danger)
    ensures r.effect.Sent? && o.Resolved? ==>
              && r.state.movies == s.movies + [m]
              && Occurrences(r.state.movies, m.externalId) == 1
              && r.state.error == s.error
              && r.state.alertText == Some(MovieAddedText) && r.state.alertVariant == Some(Success)
    ensures r.effect.Sent? && o.Rejected? ==>
              && r.state.movies == s.movies
              && r.state.error == Some(o.message)
              && r.state.alertText == Some(o.message) && r.state.alertVariant == Some(Danger)
    ensures Valid(s) ==> Valid(r.state)
  {
    if FindMovie(s.movies, m.externalId).None? then
      var sent := Sent(Post("/movies", MovieBody(m)));
      match o
      case Resolved =>
        OccurrencesAfterAppend(s.movies, m);
        Step(s.(movies := s.movies + [m], alertText := Some(MovieAddedText), alertVariant := Some(Success)), sent)
      case Rejected(msg) =>
        Step(s.(error := Some(msg), alertText := Some(msg), alertVariant := Some(Danger)), sent)
    else
      Step(s.(alertText := Some(DuplicateMovieText), alertVariant := Some(Danger)), Quiet)
  }

  /** `selectMovie`: the selected movie becomes the first movie of the library
      with that external id, or unset when there is none. */
  function SelectMovie(s: State, id: int): (r: State)
    ensures r == s.(selectedMovie := r.selectedMovie)
    ensures r.selectedMovie == FindMovie(s.movies, id)
    ensures r.selectedMovie.Some? ==> r.selectedMovie.value in s.movies && r.selectedMovie.value.externalId == id
    ensures r.selectedMovie.None? <==> forall m :: m in s.movies ==> m.externalId != id
    ensures Valid(s) ==> Valid(r)
  {
    s.(selectedMovie := FindMovie(s.movies, id))
  }

  /** `selectCustomer`: the same lookup over the customers, by id. */
  function SelectCustomer(s: State, id: int): (r: State)
    ensures r == s.(selectedCustomer := r.selectedCustomer)
    ensures r.selectedCustomer == FindCustomer(s.customers, id)
    ensures r.selectedCustomer.Some? ==> r.selectedCustomer.value in s.customers && r.selectedCustomer.value.id == id
    ensures r.selectedCustomer.None? <==> forall c :: c in s.customers ==> c.id != id
    ensures Valid(s) ==> Valid(r)
  {
    s.(selectedCustomer := FindCustomer(s.customers, id))
  }

  /** `createRental`: with no movie selected it does nothing. With a movie but
      no customer it throws before sending anything. Otherwise it posts a
      check-out keyed by the movie's title, carrying the customer's id and the
      day after `today`; success clears both selections and `error` and sets a
      success alert, failure keeps the selections and the lists and sets
      `error` and a danger alert with the message. */
  function CreateRental(s: State, o: Outcome, today: int): (r: Step)
    ensures r.state == s.(selectedMovie := r.state.selectedMovie, selectedCustomer := r.state.selectedCustomer,
                          error := r.state.error, alertText := r.state.alertText, alertVariant := r.state.alertVariant)
    ensures r.effect.Quiet? <==> s.selectedMovie.None?
    ensures r.effect.Crash? <==> s.selectedMovie.Some? && s.selectedCustomer.None?
    ensures !r.effect.Sent? ==> r.state == s
    ensures r.effect.Sent? ==>
              r.effect.request == Post(CheckOutPath(s.selectedMovie.value.title),
                                       CheckOutBody(s.selectedCustomer.value.id, today + 1))
    ensures r.effect.Sent? && o.Resolved? ==>
              && r.state.selectedMovie.None? && r.state.selectedCustomer.None? && r.state.error.None?
              && r.state.alertText == Some(RentalCreatedText) && r.state.alertVariant == Some(Success)
    ensures r.effect.Sent? && o.Rejected? ==>
              && r.state.selectedMovie == s.selectedMovie && r.state.selectedCustomer == s.selectedCustomer
              && r.state.error == Some(o.message)
              && r.state.alertText == Some(ErrorPrefix + o.message) && r.state.alertVariant == Some(Danger)
    ensures Valid(s) ==> Valid(r.state)
  {
    match s.selectedMovie
    case None => Step(s, Quiet)
    case Some(movie) =>
      match s.selectedCustomer
      case None => Step(s, Crash)
      case Some(customer) =>
        var sent := Sent(Post(CheckOutPath(movie.title), CheckOutBody(customer.id, today + 1)));
        match o
        case Resolved =>
          Step(s.(selectedMovie := None, selectedCustomer := None, error := None,
                  alertText := Some(RentalCreatedText), alertVariant := Some(Success)), sent)
        case Rejected(msg) =>
          Step(s.(error := Some(msg), alertText := Some(ErrorPrefix + msg), alertVariant := Some(Danger)), sent)
  }

  /** `returnRental(movie, customer)`: always posts a return keyed by the
      movie's title, carrying the customer's id and the movie's backend id,
      without checking the pair against the rentals. Success clears both
      selections and `error` and sets a success alert; failure keeps the
      selections and the lists and sets `error` and a danger alert. */
  function ReturnRental(s: State, movie: Movie, customer: Customer, o: Outcome): (r: Step)
    ensures r.state == s.(selectedMovie := r.state.selectedMovie, selectedCustomer := r.state.selectedCustomer,
                          error := r.state.error, alertText := r.state.alertText, alertVariant := r.state.alertVariant)
    ensures r.effect == Sent(Post(ReturnPath(movie.title), ReturnBody(customer.id, movie.id)))
    ensures o.Resolved? ==>
              && r.state.selectedMovie.None? && r.state.selectedCustomer.None? && r.state.error.None?
              && r.state.alertText == Some(RentalReturnedText) && r.state.alertVariant == Some(Success)
    ensures o.Rejected? ==>
              && r.state.selectedMovie == s.selectedMovie && r.state.selectedCustomer == s.selectedCustomer
              && r.state.error == Some(o.message)
              && r.state.alertText == Some(ErrorPrefix + o.message) && r.state.alertVariant == Some(Danger)
    ensures Valid(s) ==> Valid(r.state)
  {
    var sent := Sent(Post(ReturnPath(movie.title), ReturnBody(customer.id, movie.id)));
    match o
    case Resolved =>
      Step(s.(selectedMovie := None, selectedCustomer := None, error := None,
              alertText := Some(RentalReturnedText), alertVariant := Some(Success)), sent)
    case Rejected(msg) =>
      Step(s.(error := Some(msg), alertText := Some(ErrorPrefix + msg), alertVariant := Some(Danger)), sent)
  }

  /** The detail view is open on a movie with this external id. */
  predicate DetailsOpenOn(s: State, id: int)
  {
    s.detailsMovie.Some? && s.detailsMovie.value.externalId == id
  }

  /** `detailsCallback`: closes the detail view when it is open on this id;
      otherwise opens it on the first movie of the library with this id, or
      leaves it unset when there is none. */
  function DetailsCallback(s: State, id: int): (r: State)
    ensures r == s.(detailsMovie := r.detailsMovie)
    ensures DetailsOpenOn(s, id) ==> r.detailsMovie.None?
    ensures !DetailsOpenOn(s, id) ==> r.detailsMovie == FindMovie(s.movies, id)
    ensures !DetailsOpenOn(s, id) ==>
              && (r.detailsMovie.Some? ==> r.detailsMovie.value in s.movies && r.detailsMovie.value.externalId == id)
              && (r.detailsMovie.None? <==> forall m :: m in s.movies ==> m.externalId != id)
    ensures Valid(s) ==> Valid(r)
  {
    if DetailsOpenOn(s, id) then s.(detailsMovie := None)
    else s.(detailsMovie := FindMovie(s.movies, id))
  }

  /** The alert's `onClose`: clears the text and the variant together. */
  function DismissAlert(s: State): (r: State)
    ensures r == s.(alertText := r.alertText, alertVariant := r.alertVariant)
    ensures r.alertText.None? && r.alertVariant.None?
    ensures Valid(s) ==> Valid(r)
  {
    s.(alertText := None, alertVariant := None)
  }

  /** `selectedItemClass()`: the CSS class of the selection banner. */
  function SelectedItemClass(s: State): (r: string)
    ensures r == "items-selected" || r == "no-items-selected"
    ensures r == "items-selected" <==> s.selectedMovie.Some? || s.selectedCustomer.Some?
  {
    if s.selectedCustomer.Some? || s.selectedMovie.Some? then "items-selected" else "no-items-selected"
  }

  /** The "Create a Rental" button is rendered only when both a movie and a
      customer are selected. */
  predicate RentalButtonShown(s: State)
  {
    s.selectedMovie.Some? && s.selectedCustomer.Some?
  }
}
