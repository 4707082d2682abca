/**
 * The `App` component: its `useState` fields as the fields of a class, its
 * event handlers as methods, and the search effect (`useEffect` on `query`)
 * as the steps it takes when the query changes and when a request ends.
 * The `AbortController` of each effect run is stood for by a generation
 * number: a query change aborts the request of the previous run, so a
 * completion whose generation is not the current one is an aborted request.
 */
module Movies {
  import opened Optional
  import opened WatchList
  import Selection

  /** One entry of the catalog's `Search` array. */
  datatype SearchResult = SearchResult(imdbID: string, title: string, year: string, poster: string)

  /** How a search request ends. */
  datatype Outcome =
    | Ok(search: seq<SearchResult>)   // `Response` is "True": the `Search` list
    | ProviderFalse(message: string)  // `Response` is "False": the provider's `Error` text
    | HttpNotOk                       // `res.ok` is false
    | Rejected(message: string)       // any other exception, with its message
    | Aborted                         // the fetch was aborted

  const InitialQuery: string := "avengers"
  const MinQueryLength: nat := 3
  const FetchErrorMessage: string := "Something went wrong fetching data"

  /**
   * `query.length`: JavaScript counts UTF-16 code units, so a character
   * outside the Basic Multilingual Plane counts twice.
   */
  function Utf16Length(s: string): (r: nat)
    ensures |s| <= r <= 2 * |s|
  {
    if s == [] then 0
    else (if s[0] as int < 0x1_0000 then 1 else 2) + Utf16Length(s[1..])
  }

  /** A text of Basic Multilingual Plane characters has as many code units as characters. */
  lemma {:induction false} Utf16LengthOfBmp(s: string)
    requires forall i :: 0 <= i < |s| ==> s[i] as int < 0x1_0000
    ensures Utf16Length(s) == |s|
  {
    if s != [] {
      Utf16LengthOfBmp(s[1..]);
    }
  }

  /** Two emoji are two characters but four code units, so they pass the length gate. */
  lemma Utf16LengthOfEmoji()
    ensures |"\U{1F600}\U{1F600}"| == 2
    ensures Utf16Length("\U{1F600}\U{1F600}") == 4 >= MinQueryLength
  {
    var e := "\U{1F600}";
    assert "\U{1F600}\U{1F600}"[1..] == e;
    assert e[1..] == [];
  }

  class App {
    var query: string
    var movies: seq<SearchResult>
    var error: string
    var isLoading: bool
    var selectedId: Option<string>
    var watched: seq<WatchedMovie>
    /** The generation of the current effect run. */
    var generation: nat
    /** The generations whose request has not ended yet. */
    var inFlight: set<nat>

    ghost predicate Valid()
      reads this
    {
      forall g :: g in inFlight ==> g <= generation
    }

    /** The initial `useState` values, then the search effect's first run on mount. */
    constructor ()
      ensures Valid()
      ensures query == InitialQuery && movies == [] && watched == [] && selectedId == None
      ensures isLoading && error == ""
      ensures generation == 0 && inFlight == {0}
    {
      movies := [];
      watched := [];
      isLoading := false;
      error := "";
      query := InitialQuery;
      selectedId := None;
      generation := 0;
      inFlight := {};
      new;
      RunSearchEffect();
    }

    /**
     * One run of the search effect for the current query: a query shorter than
     * three characters empties the results and the error and issues nothing;
     * otherwise loading starts, the error is cleared and a request of the
     * current generation is issued.
     */
    method RunSearchEffect()
      requires Valid() && generation !in inFlight
      modifies this
      ensures Valid()
      ensures query == old(query) && selectedId == old(selectedId) && watched == old(watched)
      ensures generation == old(generation)
      ensures Utf16Length(query) < MinQueryLength ==>
        movies == [] && error == "" && isLoading == old(isLoading) && inFlight == old(inFlight)
      ensures Utf16Length(query) >= MinQueryLength ==>
        movies == old(movies) && isLoading && error == "" && inFlight == old(inFlight) + {generation}
    {
      if Utf16Length(query) < MinQueryLength {
        movies := [];
        error := "";
        return;
      }
      isLoading := true;
      error := "";
      inFlight := inFlight + {generation};
    }

    /**
     * `setQuery(q)`. A new value runs the effect's cleanup (aborting the
     * previous run's request, so its generation becomes stale) and then the
     * effect; the same value re-runs nothing.
     */
    method SetQuery(q: string)
      requires Valid()
      modifies this
      ensures Valid()
      ensures q == old(query) ==>
        movies == old(movies) && error == old(error) && isLoading == old(isLoading) &&
        generation == old(generation) && inFlight == old(inFlight)
      ensures q != old(query) ==> generation == old(generation) + 1
      ensures q != old(query) && Utf16Length(q) < MinQueryLength ==>
        movies == [] && error == "" && isLoading == old(isLoading) && inFlight == old(inFlight)
      ensures q != old(query) && Utf16Length(q) >= MinQueryLength ==>
        movies == old(movies) && isLoading && error == "" && inFlight == old(inFlight) + {generation}
      ensures query == q && selectedId == old(selectedId) && watched == old(watched)
    {
      if q == query {
        return;
      }
      query := q;
      generation := generation + 1;
      RunSearchEffect();
    }

    /**
     * The end of the request of generation `gen`: the `try` body, the `catch`
     * and the `finally` of `fetcMovie`. A stale generation was aborted. An
     * abort returns from `catch` without touching results or error, yet
     * `finally` still clears the loading flag, whatever generation is current.
     */
    method SearchCompleted(gen: nat, outcome: Outcome)
      requires Valid() && gen in inFlight
      modifies this
      ensures Valid()
      ensures !isLoading
      ensures inFlight == old(inFlight) - {gen}
      ensures query == old(query) && selectedId == old(selectedId) && watched == old(watched)
      ensures generation == old(generation)
      ensures gen != generation || outcome.Aborted? ==> movies == old(movies) && error == old(error)
      ensures gen == generation && outcome.Ok? ==> movies == outcome.search && error == ""
      ensures gen == generation && outcome.ProviderFalse? ==> movies == old(movies) && error == outcome.message
      ensures gen == generation && outcome.HttpNotOk? ==> movies == old(movies) && error == FetchErrorMessage
      ensures gen == generation && outcome.Rejected? ==> movies == old(movies) && error == outcome.message
    {
      inFlight := inFlight - {gen};
      var effective := if gen == generation then outcome else Aborted;
      match effective {
        case Ok(search) =>
          movies := search;
          error := "";
        case ProviderFalse(message) =>
          error := message;
        case HttpNotOk =>
          error := FetchErrorMessage;
        case Rejected(message) =>
          error := message;
        case Aborted =>
      }
      isLoading := false;
    }

    /** `handleSelectMovieId`: a click on a search result. */
    method SelectMovie(id: string)
      modifies this`selectedId
      ensures selectedId == Selection.Toggle(old(selectedId), id)
    {
      selectedId := Selection.Toggle(selectedId, id);
    }

    /** `handleCloseMovie`. */
    method CloseMovie()
      modifies this`selectedId
      ensures selectedId == None
    {
      selectedId := None;
    }

    /** `handleAddWatched`: the record goes to the end of the list. */
    method AddWatched(movie: WatchedMovie)
      modifies this`watched
      ensures watched == Appended(old(watched), movie)
    {
      watched := Appended(watched, movie);
    }

    /** `handleDeleteWatched`: every record with the id leaves the list. */
    method DeleteWatched(id: string)
      modifies this`watched
      ensures watched == RemoveId(old(watched), id)
    {
      watched := RemoveId(watched, id);
    }

    /**
     * The "Add To Watched" button of `MovieDetails`, shown while a movie is
     * selected, it is not watched yet and a rating above 0 is chosen: the
     * record built from the loaded detail is appended and the details close.
     * Where the button is not shown, nothing happens.
     */
    method AddFromDetails(detail: MovieDetail, userRating: int) returns (added: bool)
      requires selectedId != None
      modifies this`watched, this`selectedId
      ensures added == CanAdd(old(watched), old(selectedId).value, userRating)
      ensures added ==>
        watched == Appended(old(watched), BuildRecord(old(selectedId).value, detail, userRating)) &&
        selectedId == None
      ensures added ==>
        IsWatched(watched, old(selectedId).value) &&
        FindRating(watched, old(selectedId).value) == Some(userRating)
      ensures added && UniqueIds(old(watched)) ==> UniqueIds(watched)
      ensures !added ==> watched == old(watched) && selectedId == old(selectedId)
    {
      var id := selectedId.value;
      added := CanAdd(watched, id, userRating);
      if added {
        AddFromDetailsEffect(watched, id, detail, userRating);
        AddWatched(BuildRecord(id, detail, userRating));
        CloseMovie();
      }
    }
  }

  /**
   * Typing a query and then, before its answer, a second one: the first
   * request's late end leaves results and error alone but clears the loading
   * flag while the second request is still out; the second's answer is then
   * what the results show.
   */
  method SupersededSearch(first: string, second: string, late: Outcome, answer: seq<SearchResult>)
    returns (loadingAfterLate: bool, errorAfterLate: string, movies: seq<SearchResult>, error: string, loading: bool)
    requires first != InitialQuery && Utf16Length(first) >= MinQueryLength
    requires second != first && Utf16Length(second) >= MinQueryLength
    ensures !loadingAfterLate && errorAfterLate == ""
    ensures movies == answer && error == "" && !loading
  {
    var app := new App();
    app.SetQuery(first);
    assert app.generation == 1 && 1 in app.inFlight;
    app.SetQuery(second);
    assert app.generation == 2 && 1 in app.inFlight && 2 in app.inFlight;
    app.SearchCompleted(1, late);
    loadingAfterLate, errorAfterLate := app.isLoading, app.error;
    app.SearchCompleted(2, Ok(answer));
    movies, error, loading := app.movies, app.error, app.isLoading;
  }

  /** A query edited below three code units empties the results even while a request is loading. */
  method ShortQueryClears(q: string, short: string)
    returns (movies: seq<SearchResult>, error: string, loading: bool, requests: nat)
    requires q != InitialQuery && Utf16Length(q) >= MinQueryLength
    requires Utf16Length(short) < MinQueryLength
    ensures movies == [] && error == "" && loading
    ensures requests == 0
  {
    var app := new App();
    app.SetQuery(q);
    var before := app.inFlight;
    app.SetQuery(short);
    movies, error, loading := app.movies, app.error, app.isLoading;
    requests := |app.inFlight - before|;
  }
}
