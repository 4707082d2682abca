# Movie watch list: the state machine of `App`

A Dafny model of the logic inside a small React application that searches a
movie catalog, shows the details of a selected title, and keeps a watch list
of rated movies with summary figures. What is modelled is the `App`
component's state and event handlers, the search effect that runs whenever
the query changes, the add-to-watched flow of `MovieDetails`, and the pure
helpers these rely on.

- `Optional` (optional.dfy): `Option`, standing for `null`/`undefined`.
- `Stats` (stats.dfy): `average`, the left fold `acc + cur / arr.length` from 0, over exact reals.
- `Runtime` (runtime.dfy): `Number(runtime.split(" ").at(0))`, the number before the first space.
- `Selection` (selection.dfy): the toggle updater behind `handleSelectMovieId`.
- `WatchList` (watchlist.dfy): watched records, `isWatched`, `find(...)?.userRating`, the append and
  filter updaters, the record built by "Add To Watched" and its gate, and the `WachedSummary` figures.
- `Movies` (app.dfy): class `App` with the `useState` fields (`query`, `movies`, `error`,
  `isLoading`, `selectedId`, `watched`). It also has a generation counter and the set of generations
  whose request is still out. These two stand in for the `AbortController`s. The handlers and the
  search effect are methods.

Searching works like this. A query change runs the cleanup of the previous effect run, which aborts
its request, and then runs the effect. The model shows this by bumping the generation. A request's end
is delivered as `SearchCompleted(gen, outcome)`. A completion whose generation is not the current one
is an aborted request.

The model keeps these behaviours of the code:
- The length gate tests the untrimmed `query.length < 3`. Like JavaScript, it counts UTF-16 code units
  (`Movies.Utf16Length`), so a character outside the Basic Multilingual Plane counts twice. Two emoji
  make a query of length 4, which is searched.
- A provider error (`Response` "False") or an HTTP error sets `error` and leaves `movies` as they were.
- An aborted request returns from `catch`, but `finally` still sets `isLoading` to false. So a
  superseded request's late end clears the loading flag while the newer request is still out
  (`Movies.SupersededSearch`).
- The watch list does not deduplicate. Only the details view's gate (not watched yet, rating above 0)
  keeps ids unique. Appending through `handleAddWatched` directly can create duplicates
  (`WatchList.AppendWatchedBreaksUnique`).

## Model

| member | source | states |
|---|---|---|
| Stats.AverageIsMean | src/App.js:52-53 | `average` of an empty array is 0; of a non-empty one, the exact sum divided by the length |
| Stats.AccumulateIsScaledSum | src/App.js:52-53 | the reduce that adds `cur / n` to its accumulator ends at accumulator + sum / n |
| Stats.Accumulate | src/App.js:53 | the reduce callback `acc + cur / arr.length` folded from the left; `Stats.AccumulateIsScaledSum` proves it ends at accumulator + sum / n |
| Stats.Average | src/App.js:52-53 | `average`, the fold from 0 with divisor `arr.length`; `Stats.AverageIsMean` proves it is 0 on an empty array and sum / length otherwise, and `Stats.AverageBounds` proves it stays within the bounds of its values |
| Stats.SumBounds | src/App.js:52-53 | a sum of values in [lo, hi] lies between length * lo and length * hi |
| Stats.AverageBounds | src/App.js:52-53 | the average of values in [lo, hi] lies in [lo, hi] |
| Runtime.FirstToken | src/App.js:233 | `split(" ").at(0)` is a prefix of the text, holds no space, and is the whole text or is followed by a space |
| Runtime.Numeral | src/App.js:233 | the decimal numeral of a number is non-empty and all digits |
| Runtime.NumeralRoundTrip | src/App.js:233 | reading a numeral back gives the number it was written from |
| Runtime.ParseRuntimeOfNumeral | src/App.js:233 | "<n> <unit>" has runtime n, whatever the unit text |
| Runtime.ParseRuntimeExample | src/App.js:233 | "148 min" parses to 148 |
| Runtime.ParseRuntimeRejects | src/App.js:233 | a first token holding a non-digit gives NaN (`None`) |
| Runtime.ParseRuntime | src/App.js:233 | `Number(runtime.split(" ").at(0))`; `Runtime.ParseRuntimeOfNumeral` and `Runtime.ParseRuntimeExample` prove "<n> <unit>" gives n, and `Runtime.ParseRuntimeRejects` proves a non-digit first token gives NaN (`None`) |
| Selection.Toggle | src/App.js:361-363 | the result is null exactly when the clicked id was selected, and otherwise it is the clicked id |
| Selection.ToggleTwice | src/App.js:361-363 | clicking the same id twice leaves null exactly when that id was not selected before, and otherwise restores it |
| Selection.ToggleOther | src/App.js:361-363 | clicking a, then a different b, leaves b selected |
| WatchList.Find | src/App.js:208-211 | `find` fails exactly when `isWatched` is false; a found record carries the id and is in the list |
| WatchList.FindFirst | src/App.js:209-211 | `find` returns the first record with the id |
| WatchList.IsWatched | src/App.js:208 | `watched.some(movie => movie.imdbID === selectedId)`; `WatchList.Find` proves `find` fails exactly when it is false |
| WatchList.FindRating | src/App.js:209-211 | `userRatingWatched`, the rating of the first record with the id; `WatchList.AddFromDetailsEffect` proves it returns the chosen rating after an add from the details view |
| WatchList.Appended | src/App.js:366-368 | appending grows the list by one, keeps the earlier records in order, and puts the new record last |
| WatchList.RemoveId | src/App.js:370-372 | after a delete no record with the id remains, and the list is no longer |
| WatchList.RemoveIdContents | src/App.js:370-372 | a delete drops every record with the id and keeps every other record as often as it occurred |
| WatchList.RemoveIdConcat | src/App.js:370-372 | filtering a concatenation is filtering each part, so kept records stay in their order |
| WatchList.RemoveIdAbsent | src/App.js:370-372 | deleting an id that is not in the list changes nothing |
| WatchList.RemoveIdIdempotent | src/App.js:370-372 | deleting twice equals deleting once |
| WatchList.RemoveIdSingle | src/App.js:370-372 | deleting the only record with an id leaves the records before and after it, in order |
| WatchList.RemoveIdKeepsOthers | src/App.js:370-372 | any other id is watched after a delete exactly when it was before |
| WatchList.RemoveIdPreservesUnique | src/App.js:370-372 | a delete keeps unique ids unique |
| WatchList.BuildRecordFields | src/App.js:226-235 | the built record has the selected id, the chosen rating, the runtime's leading number, and the title, year, poster and catalog rating of the detail |
| WatchList.CanAdd | src/App.js:301-313 | the add gate: not watched yet and a rating above 0; `WatchList.AddFromDetailsEffect` proves that adding under it keeps ids unique, and `WatchList.AppendWatchedBreaksUnique` proves that ids collide without it |
| WatchList.BuildRecord | src/App.js:227-235 | `newWatchedMovie`; `WatchList.BuildRecordFields` proves every field of it comes from the selection, the detail and the chosen rating |
| WatchList.AddFromDetailsEffect | src/App.js:208-211 | under the gate, appending the built record makes the movie watched, gives the chosen rating back from `find`, and keeps ids unique |
| WatchList.AppendWatchedBreaksUnique | src/App.js:366-368 | appending a record whose id is already watched breaks uniqueness: the handler itself does not deduplicate |
| WatchList.SummarizeEmpty | src/App.js:118-129 | the summary count is the list length; an empty list has all averages 0 |
| WatchList.SummarizeUserRatingBounds | src/App.js:120 | ratings on the 1-10 scale average to a value on that scale |
| WatchList.SummarizeExample | src/App.js:119-121 | records (8.6, 10, 180 min) and (7.2, 8, 114 min) average to 7.9, 9 and 147 min |
| WatchList.Summarize | src/App.js:118-129 | the count and the three averages of `WachedSummary`; `WatchList.SummarizeEmpty`, `WatchList.SummarizeUserRatingBounds` and `WatchList.SummarizeExample` prove its figures |
| Movies.App.constructor | src/App.js:354-359 | the initial state, then the first effect run for "avengers": loading, no error, one request of generation 0 |
| Movies.App.RunSearchEffect | src/App.js:392-432 | a query shorter than 3 UTF-16 code units empties results and error and issues nothing; otherwise loading starts, the error clears, a request of the current generation is issued |
| Movies.App.SetQuery | src/App.js:433-438 | a new query aborts the previous request (new generation) and runs the effect; the same query changes nothing |
| Movies.App.SearchCompleted | src/App.js:398-423 | every end clears loading; Ok sets results and clears error; "False" and HTTP or other errors set the error and keep results; an abort or a stale generation changes nothing else |
| Movies.App.SelectMovie | src/App.js:361-363 | the selection becomes the toggle of the clicked id, nothing else changes |
| Movies.App.CloseMovie | src/App.js:374-376 | the selection becomes null |
| Movies.App.AddWatched | src/App.js:366-368 | the record goes to the end of the watched list |
| Movies.App.DeleteWatched | src/App.js:370-372 | the watched list is filtered by id |
| Movies.App.AddFromDetails | src/App.js:301-313 | the add happens exactly when the selected movie is not watched and the rating is above 0; then the record is appended, the movie is watched with that rating, ids stay unique, and the selection is null |
| Movies.SupersededSearch | src/App.js:414-423 | a superseded request's late end keeps the error empty but clears loading while the newer request is out; the newer answer then becomes the results |
| Movies.ShortQueryClears | src/App.js:426-430 | editing a loading query below 3 UTF-16 code units empties results and error, issues no request, and leaves loading on |
| Movies.Utf16Length | src/App.js:426 | `query.length` in UTF-16 code units lies between the number of characters and twice that |
| Movies.Utf16LengthOfBmp | src/App.js:426 | for Basic Multilingual Plane text, `query.length` is the number of characters |
| Movies.Utf16LengthOfEmoji | src/App.js:426 | two emoji have length 4, so they pass the gate of 3 |

## Left out

- The presentational components (`Logo`, `Search`, `NumResults`, `NavBar`, `MovieItem`, `MovieList`,
  `WatchedItem`, `WatchedList`, `Main`, `Loader`, `ErrorMessage`) and the open/closed toggle of
  `BoxMovies`. They only render.
- `fetch`, `res.json()`, the API URL and key, and how `AbortController` works inside. They are network
  I/O. A request is only its generation and its `Outcome`.
- The detail fetch effect of `MovieDetails`. It is an uncancelled network call. The loaded detail is a
  parameter (`MovieDetail`) of `AddFromDetails`.
- `document.title` and `console.log`. They are browser side channels.
- `toFixed(1)`, `Math.trunc` and IEEE floating point in `average`. Averages are exact `real`s.
- Runtime.ParseRuntime: does not model `Number`'s other forms (signs, decimals, exponents, hex,
  surrounding whitespace). An all-digit first token gives its value, the empty token gives 0, and
  anything else is NaN (`None`). A NaN runtime makes the runtime average NaN (`None`).
- The catalog rating's `Number(imdbRating)`. The detail carries the rating as a number already.
- `StarRating` (its source is not part of this model), the unused `tempMovieData`/`tempWatchedData`,
  and the unused `queries` import. The chosen star rating is a parameter.
- Unmounting `App`, which would abort the current request too.
