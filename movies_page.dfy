/** The movies page (src/pages/MoviesPage.js): the fetched movie list, a
    delete button per row, and the add/edit dialog it opens. */
module Movies {
  import opened Outcomes
  import opened JsValue
  import opened ListFilter
  import MovieModal

  /** The property the delete filter compares. */
  const FilterKey := "movie_id"
  /** The property the row's delete button passes. */
  const ButtonKey := "_id"

  /** What the page's callbacks do to `movies` and `openModal`, in call
      order: `onMovieSaved(newMovies)` stores its first argument
      (`undefined` when called with none), `onClose` closes the dialog. */
  function AfterCalls(movies: Value, open: bool, calls: seq<MovieModal.ParentCall>): (Value, bool)
    decreases |calls|
  {
    if calls == [] then (movies, open)
    else
      var next := match calls[0]
        case MovieSaved(args) => (if |args| > 0 then args[0] else Undefined, open)
        case Close => (movies, false);
      AfterCalls(next.0, next.1, calls[1..])
  }

  /** The table body, `movies.map((movie) => <tr key={movie.movie_id}>...)`:
      one row per movie, in order; it throws (None) unless the list is an
      array whose movies can all be read. */
  function MovieRows(movies: Value): (rows: Option<seq<Value>>)
    ensures rows.Some? <==> movies.Arr? && Readable(movies.items)
    ensures rows.Some? ==> rows.value == movies.items
  {
    if movies.Arr? && Readable(movies.items) then Some(movies.items) else None
  }

  /** A successful save calls `onMovieSaved()` with no argument and then
      `onClose()`: the list becomes `undefined` and the dialog closes, so the
      next render of the table throws and the page is unmounted. */
  lemma SaveClearsList(movies: Value, open: bool)
    ensures AfterCalls(movies, open, [MovieModal.MovieSaved([]), MovieModal.Close]) == (Undefined, false)
    ensures MovieRows(AfterCalls(movies, open, [MovieModal.MovieSaved([]), MovieModal.Close]).0).None?
  {
    var calls := [MovieModal.MovieSaved([]), MovieModal.Close];
    assert calls[1..] == [MovieModal.Close] && calls[1..][1..] == [];
  }

  /** The row button passes `_id` while the filter compares `movie_id`: the
      clicked movie is removed exactly when those two properties are equal. */
  lemma DeleteKeepsClickedRow(xs: seq<Value>, movie: Value)
    requires movie in xs
    ensures movie in Reject(xs, FilterKey, Prop(movie, ButtonKey)) <==> Prop(movie, FilterKey) != Prop(movie, ButtonKey)
  {
    ClickedRowKept(xs, movie, ButtonKey, FilterKey);
  }

  /** A backend movie with both an `_id` and a different `movie_id` stays in
      the list after its delete button is confirmed. */
  lemma DeleteExample()
    ensures var m := Obj([("_id", Str("66a1")), ("movie_id", Num(1))]);
            Reject([m], FilterKey, Prop(m, ButtonKey)) == [m]
  {
    var m := Obj([("_id", Str("66a1")), ("movie_id", Num(1))]);
    assert m.fields[1..] == [("movie_id", Num(1))];
    assert Prop(m, "movie_id") == Num(1);
    RejectSingle(m, FilterKey, Str("66a1"));
  }

  class MoviesPage {
    var movies: Value
    var openModal: bool
    var selectedMovie: Value

    constructor ()
      ensures movies == Arr([]) && !openModal && selectedMovie == Null
    {
      movies := Arr([]);
      openModal := false;
      selectedMovie := Null;
    }

    /** The mount effect: the fetched list replaces the empty one; a failed
        fetch rejects the effect and changes nothing. */
    method LoadMovies(fetched: Outcome<Value>)
      modifies this
      ensures movies == if fetched.Ok? then fetched.value else old(movies)
      ensures openModal == old(openModal) && selectedMovie == old(selectedMovie)
    {
      if fetched.Ok? {
        movies := fetched.value;
      }
    }

    /** handleDelete: delete on the backend first; then keep the movies whose
        `movie_id` differs from the argument. A failed delete, or a list that
        cannot be filtered, throws before the list changes. */
    method HandleDelete(movieId: Value, deleted: Outcome<Value>) returns (request: Value)
      modifies this
      ensures request == movieId
      ensures var kept := FilterOut(old(movies), FilterKey, movieId);
              movies == if deleted.Ok? && kept.Some? then kept.value else old(movies)
      ensures openModal == old(openModal) && selectedMovie == old(selectedMovie)
    {
      request := movieId;
      if deleted.Ok? {
        var kept := FilterOut(movies, FilterKey, movieId);
        if kept.Some? {
          movies := kept.value;
        }
      }
    }

    /** A row's edit button: select that movie and open the dialog. */
    method HandleEdit(movie: Value)
      modifies this
      ensures selectedMovie == movie && openModal && movies == old(movies)
    {
      selectedMovie := movie;
      openModal := true;
    }

    /** The add button: no selection, open the dialog. */
    method HandleAdd()
      modifies this
      ensures selectedMovie == Null && openModal && movies == old(movies)
    {
      selectedMovie := Null;
      openModal := true;
    }

    /** The dialog's `onClose`. */
    method OnClose()
      modifies this
      ensures !openModal && movies == old(movies) && selectedMovie == old(selectedMovie)
    {
      openModal := false;
    }

    /** The dialog's `onMovieSaved(newMovies)`. */
    method OnMovieSaved(args: seq<Value>)
      modifies this
      ensures movies == if |args| > 0 then args[0] else Undefined
      ensures openModal == old(openModal) && selectedMovie == old(selectedMovie)
    {
      movies := if |args| > 0 then args[0] else Undefined;
    }

    /** Runs the dialog's callbacks in the order it calls them. */
    method Deliver(calls: seq<MovieModal.ParentCall>)
      modifies this
      ensures (movies, openModal) == AfterCalls(old(movies), old(openModal), calls)
      ensures selectedMovie == old(selectedMovie)
      decreases |calls|
    {
      if calls != [] {
        match calls[0] {
          case MovieSaved(args) => OnMovieSaved(args);
          case Close => OnClose();
        }
        Deliver(calls[1..]);
      }
    }

    /** The dialog's submit as the page sees it: the dialog sends the
        request for the selected movie and, once it succeeds, the list
        becomes `undefined` and the dialog closes; a failed save changes
        nothing on the page. */
    method SaveThroughModal(modal: MovieModal.AddEditMovieModal, saved: Outcome<Value>) returns (request: MovieModal.SaveRequest)
      requires modal.Valid()
      modifies this
      ensures UniqueKeys(request.body)
      ensures Truthy(old(selectedMovie)) ==> request == MovieModal.UpdateMovie(Prop(old(selectedMovie), "_id"), modal.formData)
      ensures !Truthy(old(selectedMovie)) ==> request == MovieModal.AddMovie(modal.formData)
      ensures saved.Ok? ==> movies == Undefined && !openModal && MovieRows(movies).None?
      ensures saved.Failed? ==> movies == old(movies) && openModal == old(openModal)
      ensures selectedMovie == old(selectedMovie)
    {
      var calls;
      request, calls := modal.HandleSubmit(selectedMovie, saved);
      if saved.Ok? {
        SaveClearsList(movies, openModal);
      }
      Deliver(calls);
    }
  }
}
