# Video store front end: the App component's state machine

This project models the `App` component of a video-rental single-page front
end (`src/App.js`). The component holds the movie library, the customers and
the rentals it has loaded from the rental backend. It also holds the selected
movie and customer, the movie whose details are open, a diagnostic `error`
string and a single alert slot (`alertText`, `alertVariant`). Its handlers add
a movie to the library, select a movie or a customer, check a movie out, return
it, toggle the detail view and dismiss the alert.

Every request to the backend is an argument here. A POST settles as
`Resolved` or `Rejected(message)`. A list load settles as `Fetched(list)` or
`FetchFailed(message)`. Each handler applies the branch that matches, and the
request it would have sent is returned as an `Effect`.

The model has four modules:

- `Entities` (`entities.dfy`) holds the records, the settle outcomes and the
  request shapes. It also holds the `find` lookups, with their first-match
  contract.
- `AppState` (`app_state.dfy`) holds the state object as a value. It has one
  pure transition per handler. Each transition's contract states which fields
  may change (React's `setState` merges, so every other field keeps its
  value), what the changed fields become, and the request sent. It also states
  that the invariant `Valid` is kept. For the movies and customers loads this
  is conditional: `Valid` is kept only when the new list still holds the
  selected or detailed entries.
- `AppTraces` (`app_traces.dfy`) holds events, runs of events and the lemmas
  that relate several calls.
- `AppComponent` (`app_component.dfy`) holds the component as a class. Its
  fields are updated in place by one method per handler. Each method is proved
  to leave the object in the state its `AppState` transition gives.

Three behaviours of the code worth noting:

- `selectMovie` with an unknown id stores the unset result of `find`. It does
  not keep the old selection.
- Calling `detailsCallback(id)` twice returns the detail view to unset only
  when it was not already open on that id. When it was, the second call
  reopens it (`AppTraces.DetailsTwice`).
- A successful return shows the alert text "Movie successfully rented", as
  the code has it.

## Model

| member | source | states |
|---|---|---|
| `Entities.FirstIndex` | src/App.js:105-107 | The index `find` stops at: the first element carrying the key, or the list length when none does. Every earlier element has a different key. |
| `Entities.FindMovie` | src/App.js:105-107 | Unset exactly when no movie of the list has the external id. Otherwise it is the first movie of the list with that id. |
| `Entities.FindCustomer` | src/App.js:114-116 | Unset exactly when no customer of the list has the id. Otherwise it is the first customer of the list with that id. |
| `Entities.OccurrencesAfterAppend` | src/App.js:77-81 | A list in which the lookup finds nothing holds no movie with that id. After the movie is pushed, its id occurs exactly once. |
| `AppState.CustomersLoaded` | src/App.js:39-49 | Success replaces the customer list and clears `error`. Failure sets only `error` to the message. No other field changes. |
| `AppState.MoviesLoaded` | src/App.js:51-61 | Success replaces the library and clears `error`. Failure sets only `error`. The invariant survives when the selected and detailed movies are in the new list. |
| `AppState.RentalsLoaded` | src/App.js:63-73 | Success replaces the rental list and clears `error`. Failure sets only `error`. The invariant is always kept. |
| `AppState.AddMovie` | src/App.js:76-101 | A request is sent exactly when no movie with the external id is in the library. A duplicate gets a danger alert, and the library and `error` are unchanged. Success appends the movie at the end, so it occurs exactly once, with a success alert. Failure keeps the library and puts the message in `error` and in a danger alert. Only those four fields change. |
| `AppState.SelectMovie` | src/App.js:103-110 | Only `selectedMovie` changes. It becomes the first library movie with that id, the one `find` returns, or unset exactly when there is none. |
| `AppState.SelectCustomer` | src/App.js:112-119 | Only `selectedCustomer` changes. It becomes the first listed customer with that id, the one `find` returns, or unset exactly when there is none. |
| `AppState.CreateRental` | src/App.js:121-152 | With no movie selected, nothing is sent and nothing changes. With a movie but no customer, it throws and nothing changes. Otherwise it posts to `/rentals/{title}/check-out` with the customer id and the next day. Success clears both selections and `error` and sets a success alert. Failure keeps both selections and sets `error` and a danger alert "An error occurred: " + message. |
| `AppState.ReturnRental` | src/App.js:154-177 | It always posts to `/rentals/{title}/return` with the customer id and the movie's backend id. Success clears both selections and `error` and sets a success alert. Failure keeps the selections and the lists and sets `error` and a danger alert with the message. |
| `AppState.DetailsCallback` | src/App.js:179-189 | Only `detailsMovie` changes. It becomes unset when the view was open on that id. Otherwise it becomes the first library movie with that id, the one `find` returns, or unset exactly when there is none. |
| `AppState.DismissAlert` | src/App.js:200 | The alert text and variant are both cleared. Nothing else changes. |
| `AppState.SelectedItemClass` | src/App.js:191-193 | The class is "items-selected" exactly when a movie or a customer is selected. Otherwise it is "no-items-selected". |
| `AppTraces.InitialValid` | src/App.js:24-35 | The constructor's state satisfies the invariant. |
| `AppTraces.ApplyKeepsValid` | src/App.js:76-200 | Every event keeps the invariant, except a successful movies or customers load whose new list lacks a selected or detailed entry. |
| `AppTraces.RunKeepsValid` | src/App.js:76-200 | For any sequence of events in which each successful movies or customers load still holds the entries selected or detailed at that moment, the selections and the detail view stay entries of their lists. No rental is selected, and the alert has a text exactly when it has a variant. |
| `AppTraces.RunKeepsAlertConsistent` | src/App.js:39-200 | After any sequence of events at all, the alert has a text exactly when it has a variant. |
| `AppTraces.MoviesLoadCanOrphanSelection` | src/App.js:51-61 | A movie added and selected before the library load completes stays selected after a load that does not contain it. |
| `AppTraces.MoviesLoadCanOrphanDetails` | src/App.js:51-61 | A movie added and opened in the detail view before the library load completes stays open after a load that does not contain it. |
| `AppTraces.DetailsTwice` | src/App.js:179-189 | Two calls with the same id leave the view unset if it was not open on that id. If it was, they reopen it on the first match. Nothing else changes. |
| `AppTraces.ButtonNeverCrashes` | src/App.js:216 | When the "Create a Rental" button is shown, pressing it always sends the check-out request and never throws. |
| `AppTraces.DuplicateAddIsRefused` | src/App.js:95-99 | Adding a movie whose external id is in the library sends nothing. It changes only the alert, to the danger "already exists" text. |
| `AppTraces.CheckOutScenario` | src/App.js:121-142 | "Dune" and a customer are loaded and both are selected, and the check-out succeeds. The request goes to `/rentals/Dune/check-out` with that customer and tomorrow, and both selections are cleared. |
| `AppComponent.App.constructor` | src/App.js:21-35 | The component starts with empty lists and every other field unset. |
| `AppComponent.App.CustomersLoaded` | src/App.js:39-49 | The fields become what `AppState.CustomersLoaded` gives. |
| `AppComponent.App.MoviesLoaded` | src/App.js:51-61 | The fields become what `AppState.MoviesLoaded` gives. |
| `AppComponent.App.RentalsLoaded` | src/App.js:63-73 | The fields become what `AppState.RentalsLoaded` gives. |
| `AppComponent.App.AddMovie` | src/App.js:76-101 | The fields and the request sent are those of `AppState.AddMovie`. |
| `AppComponent.App.SelectMovie` | src/App.js:103-110 | The fields become what `AppState.SelectMovie` gives. |
| `AppComponent.App.SelectCustomer` | src/App.js:112-119 | The fields become what `AppState.SelectCustomer` gives. |
| `AppComponent.App.CreateRental` | src/App.js:121-152 | The fields and the effect (nothing, the request, or the throw) are those of `AppState.CreateRental`. |
| `AppComponent.App.ReturnRental` | src/App.js:154-177 | The fields and the request sent are those of `AppState.ReturnRental`. |
| `AppComponent.App.DetailsCallback` | src/App.js:179-189 | The fields become what `AppState.DetailsCallback` gives. |
| `AppComponent.App.DismissAlert` | src/App.js:200 | The fields become what `AppState.DismissAlert` gives. |

## Left out

- HTTP and the axios client are left out. The base URL is dropped from request paths. How a request settles is a parameter.
- The ordering of the three loads in `componentDidMount` is not modelled. Each completion is an independent event, and any order is a run of events.
- The interleaving of a handler with its own pending request is not modelled. Each handler's request settles before the next event, so two `addMovie` calls in flight for the same movie (both passing the duplicate guard) are not modelled.
- The due date is not computed from a clock. `today` is an abstract day number and the body carries `today + 1`, in place of `new Date()`, `setDate` and `toISOString`.
- The in-place `push` onto the state's own array (aliasing) is modelled as reassigning the `movies` sequence to itself plus the movie.
- `render()`, the router, Bootstrap and the child components are left out as presentation. The one exception is the visibility condition of the rental button, `AppState.RentalButtonShown`.
- The empty-text case of the alert (`alertText` set to an empty message is not rendered) is left out as presentation.
- `returnRental` with an undefined `movie` or `customer` throws when it reads `id` or `title`. The model takes both as records, so that throw is not modelled; the rental list is assumed to pass both.
- Ids are integers compared with integer equality. JavaScript's strict equality between values of different types is not modelled.
- `src/components/Nav.js` holds only static links and is not part of this model.
