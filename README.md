# Cinema admin dashboard: page state model

This project models the local view state of the cinema-booking admin
dashboard, a React single-page application. Each page keeps a few pieces of
state: a fetched list, a loading flag, an error text, dialog visibility, a
selected row and a form record. The model covers the handlers that change
that state and the values the pages compute from it:

- the add/edit movie dialog and its form record (`MovieModal`);
- the theatres page with its delete and add dialogs (`Theatres`);
- the search-by-id page (`Search`);
- the movies, users and payments list pages (`Movies`, `Users`,
  `Payments`);
- the bookings dashboard with its sample bookings (`Bookings`);
- the reports page (`Reports`).

Every page component becomes a `class` whose fields are its `useState`
variables. Each handler becomes a `method` whose `ensures` gives the whole
new state. Each pure computation becomes a `function`, and lemmas about
those functions carry the properties.

Each call to the backend is replaced by an `Outcome` parameter: `Ok(value)`
when the promise resolves and `Failed` when it rejects. The method returns
the request it would have sent, such as the id passed to a delete or the
body passed to an add.

JavaScript values are modelled by `JsValue.Value`. An object is the ordered
list of its own properties. A property read, an object spread, a `||`
fallback and an array spread each have one function there. When a handler
throws a TypeError, the model returns `None`, and the handler changes
nothing.

The model keeps four quirks of the code as they are written:

- The movies page filters deleted movies on `movie_id`, but the row button
  passes `_id`.
- The users page filters on `userId`, but the button passes `_id`.
- The movie dialog calls `onMovieSaved()` with no argument, so the movies
  page replaces its list with `undefined`.
- After a successful add, the theatre form resets `status` to `"active"`.
  The form starts with `"open"`, and `"active"` is not one of the select's
  options.

Each is proved as a lemma: `Movies.DeleteKeepsClickedRow`,
`Users.DeleteKeepsClickedRow`, `Movies.SaveClearsList` and
`Theatres.ResetDiffersOnlyInStatus`.

The search page (`SerachbyId.js:136`) unwraps the response as
`data[entityType] || data.user || data.movie`; a record wrapped under
`booking` or `theatre` is not unwrapped.

Rendering can throw as well as handlers: React refuses a plain object as a
child, and reading a property of `null` or `undefined` throws while a row
is built. The render functions of the search table and the reports table
return `None` in exactly those cases; the movies table's `Movies.MovieRows`
checks only that the list can be mapped and its movies read.

The `Bookings` lemmas about the four sample bookings are worked examples on
that data; the general facts about a cancel are `ListFilter.RejectMembership`,
`ListFilter.RejectAppend` and `ListFilter.RejectCount`.

Files: `outcomes.dfy`, `js_value.dfy`, `js_string.dfy`, `list_filter.dfy`
(the shared `filter` after a delete), then one file per page.

## Model

| member | source | states |
|---|---|---|
| JsValue.Or | src/components/AddEditMovieModel.js:36-41 | `a \|\| b` is one of its operands; it is `a` exactly when `a` is truthy, and truthy whenever `b` is |
| JsValue.Put | src/components/AddEditMovieModel.js:61-66 | `{...o, [k]: v}` reads `v` at `k` and the old value at every other key; an existing key keeps its place and a new one goes last |
| JsValue.PutKeepsUniqueKeys | src/components/AddEditMovieModel.js:61-66 | spreading a property into an object keeps its property names unique |
| JsValue.PutSameValue | src/components/AddEditMovieModel.js:61-66 | writing back the value a property already holds gives the same object |
| JsValue.PutPut | src/components/AddEditMovieModel.js:76-86 | a second spread of the same property overrides the first |
| JsValue.Spread | src/components/AddEditMovieModel.js:70-79 | `[...v]` succeeds exactly on arrays and strings; an array yields its elements and a string its characters |
| JsValue.OwnEntries | src/pages/SerachbyId.js:158 | `Object.keys` lists an object's fields, an array's decimal indices and a string's positions, and nothing for other values |
| JsValue.OptionalProp | src/pages/BookingsPage.js:208 | `v?.k` is `undefined` on a nullish value and the property read otherwise |
| JsValue.RecordLookup | src/pages/TheatresPage.js:48-65 | an object literal with distinct names has exactly those keys in order, and each name reads its own value |
| JsString.JoinSplit | src/components/AddEditMovieModel.js:155-158 | joining a split with the same one-character separator gives the string back |
| JsString.SplitJoin | src/components/AddEditMovieModel.js:155-158 | splitting a join of separator-free pieces gives the pieces back |
| ListFilter.FilterOut | src/pages/TheatresPage.js:94 | `list.filter(x => x[key] !== id)` succeeds exactly on an array whose elements are all readable, and then yields the kept rows |
| ListFilter.RejectMembership | src/pages/TheatresPage.js:94 | a row survives the filter exactly when it was in the list and its key differs from the id |
| ListFilter.RejectAppend | src/pages/BookingsPage.js:81-84 | filtering distributes over concatenation, so kept rows stay in their original order |
| ListFilter.RejectNoMatch | src/pages/UserPage.js:17-20 | when no row carries the id, the list is unchanged |
| ListFilter.RejectIdempotent | src/pages/BookingsPage.js:81-84 | filtering twice by the same id removes nothing more |
| ListFilter.RejectCount | src/pages/PaymentsPage.js:16-19 | the filtered list is shorter by exactly the number of matching rows |
| ListFilter.ClickedRowKept | src/pages/MoviesPage.js:19-22 | when the button passes one property and the filter compares another, the clicked row is kept exactly when the two differ |
| ListFilter.RejectReadable | src/pages/TheatresPage.js:94 | filtering keeps every element readable, so a second filter cannot throw |
| MovieModal.EmptyTicketPriceFields | src/components/AddEditMovieModel.js:18-21 | a fresh ticket price has an empty base price and exactly one empty discount |
| MovieModal.FormKeysDistinct | src/components/AddEditMovieModel.js:6-22 | the twelve form properties are distinct names |
| MovieModal.InitialForm | src/components/AddEditMovieModel.js:6-22 | the fresh form has the twelve properties in order, every text field empty, no genres, one empty actor and the empty ticket price |
| MovieModal.FormFromMovie | src/components/AddEditMovieModel.js:24-44 | editing a movie copies its fields unchanged; `actors` and `ticket_price` fall back to one empty entry only when the movie's value is falsy |
| MovieModal.DottedName | src/components/AddEditMovieModel.js:50-60 | an input named `ticket_price.<field>` splits into the head `ticket_price` and the field |
| MovieModal.InputChange | src/components/AddEditMovieModel.js:46-67 | a `ticket_price...` name writes one property of the nested object under the first segment and keeps its others; any other name writes that top-level property; all other properties are unchanged |
| MovieModal.TicketPriceInput | src/components/AddEditMovieModel.js:50-60 | the base-price input changes just that field of the ticket price and no other top-level property |
| MovieModal.GenreInput | src/components/AddEditMovieModel.js:150-164 | the genre input stores the comma-split pieces of its text and changes nothing else |
| MovieModal.GenreTextRoundTrip | src/components/AddEditMovieModel.js:150-164 | text shown joined with ", " and read back split on "," gives every genre after the first with a leading space |
| MovieModal.GenreTextExample | src/components/AddEditMovieModel.js:155-158 | "Drama" and "Action" come back as "Drama" and " Action" |
| MovieModal.WithoutIndexSlices | src/components/AddEditMovieModel.js:83-86 | removing by index drops exactly that element and keeps the rest in order; an out-of-range index keeps the list |
| MovieModal.AppendThenRemove | src/components/AddEditMovieModel.js:76-86 | removing the entry just appended restores the list |
| MovieModal.EntryChange | src/components/AddEditMovieModel.js:69-74 | `updated[index][name] = value` succeeds exactly on a spreadable list with an object at that index; that entry takes the value and every other entry and property stays |
| MovieModal.EntryAppend | src/components/AddEditMovieModel.js:76-81 | `[...list, entry]` succeeds exactly on a spreadable list and appends the entry |
| MovieModal.EntryRemove | src/components/AddEditMovieModel.js:83-86 | removing by index succeeds exactly on arrays and removes exactly that index |
| MovieModal.WithActors | src/components/AddEditMovieModel.js:73 | the form with new actors differs from the old form only in `actors` |
| MovieModal.ActorChange | src/components/AddEditMovieModel.js:69-74 | handleActorChange fails exactly when the entry update fails, and otherwise stores the updated actors |
| MovieModal.AddActor | src/components/AddEditMovieModel.js:76-81 | handleAddActor appends one empty actor, and fails exactly when `actors` cannot be spread |
| MovieModal.RemoveActor | src/components/AddEditMovieModel.js:83-86 | handleRemoveActor removes that index, and fails exactly when `actors` is not an array |
| MovieModal.AddThenRemoveActor | src/components/AddEditMovieModel.js:76-86 | adding an actor and then removing the last one gives back the original form |
| MovieModal.DiscountList | src/components/AddEditMovieModel.js:88-96 | reading `ticket_price.discounts` throws exactly when the ticket price is nullish |
| MovieModal.WithDiscounts | src/components/AddEditMovieModel.js:92-95 | the nested spread replaces `discounts` only and keeps the other ticket-price fields and top-level properties |
| MovieModal.DiscountChange | src/components/AddEditMovieModel.js:88-96 | handleDiscountChange stores the updated discount list, and fails exactly when the list cannot be read or the entry cannot be updated |
| MovieModal.AddDiscount | src/components/AddEditMovieModel.js:98-109 | handleAddDiscount appends one empty discount, and fails exactly when the list cannot be read or spread |
| MovieModal.RemoveDiscount | src/components/AddEditMovieModel.js:111-119 | handleRemoveDiscount removes that index, and fails exactly when the list is missing or not an array |
| MovieModal.AddThenRemoveDiscount | src/components/AddEditMovieModel.js:98-119 | adding a discount and then removing the last one gives back the same discounts, base price and other properties |
| MovieModal.AddEditMovieModal.constructor | src/components/AddEditMovieModel.js:6-22 | the dialog starts with the initial form |
| MovieModal.AddEditMovieModal.SyncMovie | src/components/AddEditMovieModel.js:24-44 | a truthy movie replaces the form with the movie's form; a falsy one leaves it |
| MovieModal.AddEditMovieModal.HandleInputChange | src/components/AddEditMovieModel.js:46-67 | the form becomes the input change of the old form, and its names stay unique |
| MovieModal.AddEditMovieModal.HandleGenreInput | src/components/AddEditMovieModel.js:156-160 | the form becomes the genre input of the old form |
| MovieModal.AddEditMovieModal.HandleActorChange | src/components/AddEditMovieModel.js:69-74 | the form takes the actor change, or stays as it was when the handler throws |
| MovieModal.AddEditMovieModal.HandleAddActor | src/components/AddEditMovieModel.js:76-81 | the form takes the added actor, or stays as it was when the handler throws |
| MovieModal.AddEditMovieModal.HandleRemoveActor | src/components/AddEditMovieModel.js:83-86 | the form takes the removal, or stays as it was when the handler throws |
| MovieModal.AddEditMovieModal.HandleDiscountChange | src/components/AddEditMovieModel.js:88-96 | the form takes the discount change, or stays as it was when the handler throws |
| MovieModal.AddEditMovieModal.HandleAddDiscount | src/components/AddEditMovieModel.js:98-109 | the form takes the added discount, or stays as it was when the handler throws |
| MovieModal.AddEditMovieModal.HandleRemoveDiscount | src/components/AddEditMovieModel.js:111-119 | the form takes the removal, or stays as it was when the handler throws |
| MovieModal.AddEditMovieModal.HandleSubmit | src/components/AddEditMovieModel.js:121-129 | a truthy movie is updated by its `_id`, otherwise the form is added, and the body sent has unique property names because the dialog keeps its form's names unique (`Valid()`); on success the parent gets `onMovieSaved()` with no argument and then `onClose()`, on failure neither |
| Theatres.ResetDiffersOnlyInStatus | src/pages/TheatresPage.js:116-133 | the form after an add equals the starting form except that `status` is "active" instead of "open"; "open" is a select option and "active" is not |
| Theatres.SetLeaf | src/pages/TheatresPage.js:230-531 | each input's change handler writes its own leaf of the nested form and leaves every other leaf, the amenities and the screen count unchanged |
| Theatres.SetLeafSame | src/pages/TheatresPage.js:230-531 | writing back the text an input shows leaves the form unchanged |
| Theatres.Selected | src/pages/TheatresPage.js:498-505 | the amenities select stores exactly the values of the picked options |
| Theatres.SelectedDistinct | src/pages/TheatresPage.js:498-505 | with distinct options, no amenity is stored twice |
| Theatres.SelectedPrefix | src/pages/TheatresPage.js:498-505 | the picked values come in document order: those picked among the first n options form a prefix of the stored list |
| Theatres.AmenitiesDistinct | src/pages/TheatresPage.js:20-41 | the twenty amenity options are distinct |
| Theatres.TheatreKeysDistinct | src/pages/TheatresPage.js:48-65 | the theatre form's property names are distinct, and none of them is `_id` |
| Theatres.CoordinatesFields | src/pages/TheatresPage.js:51 | the coordinates object reads the latitude and longitude texts |
| Theatres.ContactFields | src/pages/TheatresPage.js:57 | a contact object reads its phone and email texts |
| Theatres.ManagerFields | src/pages/TheatresPage.js:58-61 | a manager object reads its name and its contact object |
| Theatres.LocationFields | src/pages/TheatresPage.js:50-56 | the location object reads its coordinates and its address, city, state and zip texts |
| Theatres.FormFields | src/pages/TheatresPage.js:48-65 | the object sent on add has the form's properties in declared order, each holding its part of the form, and no `_id` |
| Theatres.LeafAtPath | src/pages/TheatresPage.js:230-531 | each input shows the string at its property path in the form object |
| Theatres.FormValueInjective | src/pages/TheatresPage.js:113-114 | two different forms are sent as two different objects |
| Theatres.DeleteKeeps | src/pages/TheatresPage.js:93-95 | confirming a delete keeps exactly the rows whose `_id` differs from the selected id |
| Theatres.DeleteAddedTheatre | src/pages/TheatresPage.js:114-187 | a theatre added in this session has no `_id`, so deleting it removes every row without an `_id` and keeps every row with one |
| Theatres.TheatresPage.constructor | src/pages/TheatresPage.js:42-65 | an empty list, loading, no error, both dialogs hidden, no selection and the initial form |
| Theatres.TheatresPage.LoadTheatres | src/pages/TheatresPage.js:68-81 | the fetched value on success, the fetch error on failure; loading stops either way and nothing else changes |
| Theatres.TheatresPage.HandleDelete | src/pages/TheatresPage.js:84-87 | the clicked id is selected and the confirmation opens |
| Theatres.TheatresPage.ConfirmDelete | src/pages/TheatresPage.js:90-102 | the selected id is sent; on success rows with that `_id` are dropped; a failed call or an unfilterable list sets the delete error; the dialog always closes |
| Theatres.TheatresPage.HandleAddTheatre | src/pages/TheatresPage.js:105-107 | the add dialog opens and nothing else changes |
| Theatres.TheatresPage.HideAddModal | src/pages/TheatresPage.js:216 | the add dialog hides and the form keeps its text |
| Theatres.TheatresPage.HideDeleteModal | src/pages/TheatresPage.js:200-206 | the delete dialog hides and the selection stays |
| Theatres.TheatresPage.HandleAddTheatreSubmit | src/pages/TheatresPage.js:110-138 | the form object is sent; on success it is appended, the dialog closes and the form resets; otherwise the add error is set and everything else stays |
| Theatres.TheatresPage.UpdateField | src/pages/TheatresPage.js:230-531 | the form takes the input's text at its leaf, and nothing else on the page changes |
| Theatres.TheatresPage.UpdateAmenities | src/pages/TheatresPage.js:498-505 | the form's amenities become the picked options, and nothing else changes |
| Search.DefaultIsFirstOption | src/pages/SerachbyId.js:190-194 | the default entity type "users" is the first of five distinct options |
| Search.RequestUrl | src/pages/SerachbyId.js:132-134 | the URL is the base followed by `entityType/id` |
| Search.ParseRequestUrlRoundTrip | src/pages/SerachbyId.js:132-134 | for an entity type without a slash, the URL determines the entity type and the id |
| Search.EntityTypesHaveNoSlash | src/pages/SerachbyId.js:190-194 | no option contains a slash, so every option's URL can be read back |
| Search.FirstTruthyPicks | src/pages/SerachbyId.js:135-137 | an `\|\|` chain picks the first truthy candidate, or the last candidate when none is truthy |
| Search.Unwrap | src/pages/SerachbyId.js:135-137 | unwrapping fails exactly when the response body is nullish |
| Search.UnwrapFirstTruthy | src/pages/SerachbyId.js:135-137 | the record shown is the first truthy value among the entity-type key, `user` and `movie` |
| Search.Classify | src/pages/SerachbyId.js:93-120 | arrays become list cells with their elements, other objects JSON cells, and every other value a raw cell; an array holding an object (at any depth) cannot be shown, since each item is rendered as a React child |
| Search.RenderTable | src/pages/SerachbyId.js:145-163 | no table when the data is falsy; otherwise rendering throws exactly when some value cannot be shown, and else gives one row per own key, in key order, with the classified value |
| Search.TableReadsRecord | src/pages/SerachbyId.js:158 | for a record, the table is shown exactly when every property value can be shown, and then row i names its i-th property and shows that property's value |
| Search.TableReadsArray | src/pages/SerachbyId.js:158 | for an array, the table is shown exactly when every element can be shown, and then row i is named by the decimal index and shows element i |
| Search.ListOfObjectsThrows | src/pages/SerachbyId.js:100-105 | a record whose list property holds an object makes the page throw while rendering |
| Search.SearchById.constructor | src/pages/SerachbyId.js:25-29 | empty id, type "users", not loading, null data, empty error |
| Search.SearchById.SetId | src/pages/SerachbyId.js:177 | the id box sets the id only |
| Search.SearchById.SetEntityType | src/pages/SerachbyId.js:187 | the select sets the entity type only |
| Search.SearchById.StartSearch | src/pages/SerachbyId.js:123-134 | an empty id sets the guard error and sends no request; otherwise the error clears, loading starts and the URL is sent |
| Search.SearchById.FinishSearch | src/pages/SerachbyId.js:135-142 | an unwrappable body becomes the data; a failed request or an unreadable body sets the error and keeps the old data; loading stops |
| Search.SearchById.HandleSearch | src/pages/SerachbyId.js:122-143 | the whole click: the guard, or the request followed by its outcome |
| Movies.SaveClearsList | src/pages/MoviesPage.js:100-102 | a save's calls `onMovieSaved()` and `onClose()` leave the list `undefined` and the dialog closed, so the next render of the movie table throws and the page unmounts |
| Movies.MovieRows | src/pages/MoviesPage.js:57-58 | the movie table renders one row per movie, in order, and throws exactly when the list is not an array or holds a nullish movie |
| Movies.DeleteKeepsClickedRow | src/pages/MoviesPage.js:19-22 | the clicked movie is removed exactly when its `movie_id` equals its `_id` |
| Movies.DeleteExample | src/pages/MoviesPage.js:84 | a movie with `_id` "66a1" and `movie_id` 1 stays after its delete |
| Movies.MoviesPage.constructor | src/pages/MoviesPage.js:7-9 | empty list, dialog closed, no selection |
| Movies.MoviesPage.LoadMovies | src/pages/MoviesPage.js:11-17 | the fetched list on success, unchanged on failure |
| Movies.MoviesPage.HandleDelete | src/pages/MoviesPage.js:19-22 | the id is sent; on success the movies whose `movie_id` differs are kept; a failure or an unfilterable list changes nothing |
| Movies.MoviesPage.HandleEdit | src/pages/MoviesPage.js:24-27 | the movie is selected and the dialog opens |
| Movies.MoviesPage.HandleAdd | src/pages/MoviesPage.js:29-32 | no selection and the dialog opens |
| Movies.MoviesPage.OnClose | src/pages/MoviesPage.js:100 | the dialog closes |
| Movies.MoviesPage.OnMovieSaved | src/pages/MoviesPage.js:102 | the list becomes the first argument, `undefined` when there is none |
| Movies.MoviesPage.Deliver | src/pages/MoviesPage.js:100-102 | running the dialog's callbacks in order gives the state `AfterCalls` computes |
| Movies.MoviesPage.SaveThroughModal | src/components/AddEditMovieModel.js:121-129 | the dialog sends the update or add with a body whose property names are unique; after a successful save the page's list is `undefined`, its table cannot render and the dialog is closed; a failed save changes nothing |
| Users.DeleteKeepsClickedRow | src/pages/UserPage.js:17-20 | the clicked user is removed exactly when its `userId` equals its `_id` |
| Users.DeleteWithoutMatchKeepsList | src/pages/UserPage.js:17-20 | when no user's `userId` equals the id, a successful delete leaves the list unchanged |
| Users.UsersPage.constructor | src/pages/UserPage.js:7 | empty list |
| Users.UsersPage.LoadUsers | src/pages/UserPage.js:9-15 | the fetched list on success, unchanged on failure |
| Users.UsersPage.HandleDelete | src/pages/UserPage.js:17-20 | the id is sent; on success the users whose `userId` differs are kept; a failure or an unfilterable list changes nothing |
| Payments.RefundRemovesClickedRow | src/pages/PaymentsPage.js:16-19 | a refund removes the clicked payment and keeps exactly the payments with another `payment_id` |
| Payments.RefundCount | src/pages/PaymentsPage.js:16-19 | a refund shortens the list by the number of payments carrying the id |
| Payments.PaymentsPage.constructor | src/pages/PaymentsPage.js:6 | empty list |
| Payments.PaymentsPage.LoadPayments | src/pages/PaymentsPage.js:8-14 | the fetched list on success, unchanged on failure |
| Payments.PaymentsPage.HandleRefund | src/pages/PaymentsPage.js:16-19 | the id is sent; on success the payments whose `payment_id` differs are kept; a failure or an unfilterable list changes nothing |
| Bookings.BookingFields | src/pages/BookingsPage.js:16-45 | a sample booking is an object with the five properties in order, each holding its value |
| Bookings.DummyIds | src/pages/BookingsPage.js:16-45 | the four samples have `booking_id` 1 to 4 |
| Bookings.RejectKeepsObjects | src/pages/BookingsPage.js:81-84 | cancelling keeps every remaining booking an object |
| Bookings.FourBookingsKeptByUndefined | src/pages/BookingsPage.js:208 | example: four bookings with ids 1 to 4 all survive a cancel by `undefined` |
| Bookings.FourBookingsCancelSecond | src/pages/BookingsPage.js:81-84 | example: cancelling id 2 from bookings with ids 1 to 4 removes exactly the second |
| Bookings.FourObjects | src/pages/BookingsPage.js:16-45 | four objects form a list of objects |
| Bookings.DummyAllObjects | src/pages/BookingsPage.js:16-45 | every sample booking is an object |
| Bookings.ConfirmWithoutSelection | src/pages/BookingsPage.js:208 | example: confirming with no booking selected removes nothing from the samples |
| Bookings.CancelSecondSample | src/pages/BookingsPage.js:81-84 | example: cancelling booking 2 leaves samples 1, 3 and 4 in order |
| Bookings.AdminDashboard.constructor | src/pages/BookingsPage.js:76-79 | the sample list, not loading, dialog hidden, no selection |
| Bookings.AdminDashboard.HandleCancelBooking | src/pages/BookingsPage.js:81-84 | the bookings with that id are dropped, the rest kept in order, and the dialog hides |
| Bookings.AdminDashboard.OpenCancelModal | src/pages/BookingsPage.js:86-89 | the booking is selected and the dialog shows |
| Bookings.AdminDashboard.CloseCancelModal | src/pages/BookingsPage.js:91-94 | the selection clears and the dialog hides |
| Bookings.AdminDashboard.ConfirmCancel | src/pages/BookingsPage.js:208 | cancels by `selectedBooking?.booking_id` |
| Reports.Normalize | src/pages/ReportsPage.js:34-38 | an array response is the list, any other response the one report |
| Reports.NormalizeIdempotent | src/pages/ReportsPage.js:34-38 | normalising an already normalised list changes nothing |
| Reports.PlaceholderOnlyForEmptyList | src/pages/ReportsPage.js:135-150 | the "No reports found" row is shown exactly when the response is an empty list |
| Reports.RenderRow | src/pages/ReportsPage.js:138-141 | each cell is the report's property when truthy and its fallback text otherwise |
| Reports.RenderRows | src/pages/ReportsPage.js:135-150 | an empty list shows the placeholder row; otherwise one row per report in order, and rendering throws exactly when a report is nullish or one of its cells is not a valid React child (an object, or an array holding one) |
| Reports.CellsAreTruthy | src/pages/ReportsPage.js:138-141 | every cell shown is truthy |
| Reports.SingleReportOneRow | src/pages/ReportsPage.js:34-38 | a single report object renders as exactly one row when its cells can be shown, and makes the page throw otherwise |
| Reports.ObjectDataThrows | src/pages/ReportsPage.js:141 | a report whose `data` is a record makes the table, and so the page, throw |
| Reports.Render | src/pages/ReportsPage.js:91 | while loading the page shows the loading message; otherwise it shows the table, and throws exactly when the rows do |
| Reports.ReportsPage.constructor | src/pages/ReportsPage.js:27-28 | no reports, loading |
| Reports.ReportsPage.LoadReports | src/pages/ReportsPage.js:30-46 | the normalised response on success, the old reports on failure; loading stops either way |
| Reports.LoadFailureShowsPlaceholder | src/pages/ReportsPage.js:39-43 | a failed first fetch leaves the page showing the single "No reports found" row |

## Left out

- Services and HTTP: every backend call is an `Outcome` parameter, and the request the page would send is returned. The service modules and the network are not part of this model.
- Rendering (JSX layout, Bootstrap and Tailwind classes, the charts, `statsData`): the model keeps only the values that rows and cells are built from. In particular the movie dialog's own render is not modelled, so two of its throws are not captured: `formData.genre.join(", ")` (AddEditMovieModel.js:155) throws when `genre` is not an array, which `MovieModal.FormFromMovie` allows because it copies the movie's `genre` unchanged, and `formData.ticket_price.discounts.map` (AddEditMovieModel.js:305) throws when `discounts` is missing.
- Movies.MovieRows: checks only that the list can be mapped and its movies read, not that each shown cell (`movie.title`, `movie.genre`, ...) is a valid React child; the users, payments, bookings and theatres tables are not rendered in the model at all.
- Locale date formatting and `JSON.stringify` text on the search and reports pages: kept as the values they format.
- React scheduling: state setters are batched and asynchronous in React, and closures can see stale state. Each handler is modelled as one atomic step that reads the current state.
- Concurrency between an in-flight request and other clicks: each awaited call is resolved inside its handler.
- Floating point: `Num` holds integers, so no NaN and no fractions.
- Object identity: `!==` on objects is modelled as structural inequality.
- Property reads on arrays and primitives (`length`, methods, index names) give `undefined` in `Prop`; none of the keys the pages read is such a name.
- `Object.keys` ordering of integer-like keys, which JavaScript lists first: `OwnEntries` keeps insertion order.
- Strings are sequences of characters, with no UTF-16 code units or surrogate pairs.
- `console.error` logging.
- MovieModal.AddEditMovieModal.HandleActorChange: in the code the entry object is shared with the previous state and with the `movie` prop, and `updated[index][name] = value` mutates it in place. The model writes a fresh entry. A `null`, `undefined` or primitive entry throws, as strict-mode module code does, and the model agrees.
- MovieModal.AddEditMovieModal.HandleDiscountChange: same in-place aliasing as actor changes, not modelled.
- MovieModal.EntryChange: an entry that is an array gets the named property in JavaScript, but the model has no named properties on arrays and returns `None` (a throw) instead.
- Browser form validation (`required`, `type="number"`): every input is modelled as submitting the text it holds.
- `fieldMappings` on the search page (SerachbyId.js:32-91): declared but never used.
- Search.SearchById.SetEntityType accepts any string; the select offers only five.
- MovieLoader.js, App.js and Sidebar.js (routing and navigation) are not part of this model.
