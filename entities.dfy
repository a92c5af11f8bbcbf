/**
 * The values the App component of the video store front end keeps in its
 * state: the records the rental backend lists, the way a request settles,
 * the alert variants, and the `find` lookups the handlers use to pick a
 * record out of a list.
 */
module Entities {

  datatype Option<+T> = None | Some(value: T)

  /** A movie. `externalId` is the key of the external movie database, the
      one the library is searched and matched on; `id` is the backend's own
      key, absent on a movie that comes straight from a search. */
  datatype Movie = Movie(id: Option<int>, externalId: int, title: string)

  datatype Customer = Customer(id: int, name: string)

  /** A rental as the backend lists it. The component only stores these. */
  datatype Rental = Rental(movieTitle: string, customerId: int, dueDay: int)

  /** How a POST request settled: the promise resolved, or it was rejected
      with an error carrying a message. */
  datatype Outcome = Resolved | Rejected(message: string)

  /** How a GET of a list settled: with the list, or with an error message. */
  datatype Fetch<T> = Fetched(data: seq<T>) | FetchFailed(message: string)

  /** The Bootstrap variants the alert is shown with. */
  datatype Variant = Success | Danger

  /** The request body of each POST the component sends. A check-out
      carries the customer and the due day; a return carries the customer
      and the backend id of the movie (absent when the movie has none). */
  datatype Body =
    | MovieBody(movie: Movie)
    | CheckOutBody(customerId: int, dueDay: int)
    | ReturnBody(customerId: int, movieId: Option<int>)

  /** A POST to a path relative to the backend's base URL. */
  datatype Request = Post(path: string, body: Body)

  /** Where `Array.prototype.find` stops: the index of the first element whose
      key is `id`, or `|xs|` when no element has it. */
  function FirstIndex<T>(xs: seq<T>, key: T -> int, id: int): (i: nat)
    ensures i <= |xs|
    ensures i < |xs| ==> key(xs[i]) == id
    ensures forall j :: 0 <= j < i ==> key(xs[j]) != id
  {
    if xs == [] then 0
    else if key(xs[0]) == id then 0
    else
      var k := FirstIndex(xs[1..], key, id);
      assert forall j :: 1 <= j < k + 1 ==> xs[j] == xs[1..][j - 1];
      k + 1
  }

  /** `movies.find(movie => movie.external_id === id)`: the first movie with
      that external id, or none. */
  function FindMovie(movies: seq<Movie>, id: int): (r: Option<Movie>)
    ensures r.None? <==> forall m :: m in movies ==> m.externalId != id
    ensures r.Some? ==> exists i :: 0 <= i < |movies| && movies[i] == r.value && r.value.externalId == id
                                    && forall j :: 0 <= j < i ==> movies[j].externalId != id
  {
    var i := FirstIndex(movies, (m: Movie) => m.externalId, id);
    if i < |movies| then Some(movies[i]) else None
  }

  /** `customers.find(customer => customer.id === id)`: the first customer
      with that id, or none. */
  function FindCustomer(customers: seq<Customer>, id: int): (r: Option<Customer>)
    ensures r.None? <==> forall c :: c in customers ==> c.id != id
    ensures r.Some? ==> exists i :: 0 <= i < |customers| && customers[i] == r.value && r.value.id == id
                                    && forall j :: 0 <= j < i ==> customers[j].id != id
  {
    var i := FirstIndex(customers, (c: Customer) => c.id, id);
    if i < |customers| then Some(customers[i]) else None
  }

  /** How many movies of the list carry the external id. */
  function Occurrences(movies: seq<Movie>, id: int): (n: nat)
  {
    if movies == [] then 0
    else (if movies[0].externalId == id then 1 else 0) + Occurrences(movies[1..], id)
  }

  /** A list the lookup finds nothing in holds no movie with that id at all,
      and appending one movie with the id makes it occur exactly once. */
  lemma {:induction false} OccurrencesAfterAppend(movies: seq<Movie>, m: Movie)
    requires FindMovie(movies, m.externalId).None?
    ensures Occurrences(movies, m.externalId) == 0
    ensures Occurrences(movies + [m], m.externalId) == 1
  {
    if movies != [] {
      assert movies[1..] + [m] == (movies + [m])[1..];
      assert forall x :: x in movies[1..] ==> x in movies;
      OccurrencesAfterAppend(movies[1..], m);
    }
  }
}
