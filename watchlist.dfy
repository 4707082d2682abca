/**
 * The watched list of the application: its records, the lookups that
 * `MovieDetails` makes on it (`isWatched`, `userRatingWatched`), the two
 * updaters `App` passes to `setWatched` (append, filter by id), the record
 * that "Add To Watched" builds, and the summary `WachedSummary` derives.
 */
module WatchList {
  import opened Optional
  import Stats
  import Runtime

  /** A watched record; `runtime` is `None` where `Number` gave NaN. */
  datatype WatchedMovie = WatchedMovie(
    imdbID: string,
    title: string,
    year: string,
    poster: string,
    imdbRating: real,
    runtime: Option<nat>,
    userRating: int)

  /** The fields of a loaded movie detail that the record is built from. */
  datatype MovieDetail = MovieDetail(
    title: string,
    year: string,
    poster: string,
    runtime: string,
    imdbRating: real)

  /** `watched.some(movie => movie.imdbID === id)` */
  predicate IsWatched(watched: seq<WatchedMovie>, id: string)
  {
    exists i :: 0 <= i < |watched| && watched[i].imdbID == id
  }

  /** At most one record per id: what the add-from-details gate maintains. */
  predicate UniqueIds(watched: seq<WatchedMovie>)
  {
    forall i, j :: 0 <= i < j < |watched| ==> watched[i].imdbID != watched[j].imdbID
  }

  /** `watched.find(movie => movie.imdbID === id)`: the first record with that id. */
  function Find(watched: seq<WatchedMovie>, id: string): (r: Option<WatchedMovie>)
    ensures r == None <==> !IsWatched(watched, id)
    ensures r != None ==> r.value.imdbID == id && r.value in watched
  {
    if watched == [] then None
    else if watched[0].imdbID == id then Some(watched[0])
    else
      var r := Find(watched[1..], id);
      assert forall i :: 1 <= i < |watched| ==> watched[i] == watched[1..][i - 1];
      r
  }

  /** `userRatingWatched`: `find(...)?.userRating`. */
  function FindRating(watched: seq<WatchedMovie>, id: string): Option<int>
  {
    match Find(watched, id)
    case None => None
    case Some(m) => Some(m.userRating)
  }

  /** The record found is the first one carrying the id. */
  lemma {:induction false} FindFirst(watched: seq<WatchedMovie>, id: string, k: nat)
    requires k < |watched| && watched[k].imdbID == id
    requires forall j :: 0 <= j < k ==> watched[j].imdbID != id
    ensures Find(watched, id) == Some(watched[k])
  {
    if k > 0 {
      FindFirst(watched[1..], id, k - 1);
    }
  }

  /** The updater of `handleAddWatched`: `[...watched, movie]`. */
  function Appended(watched: seq<WatchedMovie>, movie: WatchedMovie): (r: seq<WatchedMovie>)
    ensures |r| == |watched| + 1
    ensures r[..|watched|] == watched && r[|watched|] == movie
  {
    watched + [movie]
  }

  /** The updater of `handleDeleteWatched`: `watched.filter(movie => movie.imdbID !== id)`. */
  function RemoveId(watched: seq<WatchedMovie>, id: string): (r: seq<WatchedMovie>)
    ensures !IsWatched(r, id)
    ensures |r| <= |watched|
  {
    if watched == [] then []
    else
      var rest := RemoveId(watched[1..], id);
      assert watched == [watched[0]] + watched[1..];
      if watched[0].imdbID == id then rest else [watched[0]] + rest
  }

  /** A delete removes every record with the id and keeps every other record, as often as it occurs. */
  lemma {:induction false} RemoveIdContents(watched: seq<WatchedMovie>, id: string)
    ensures forall m :: multiset(RemoveId(watched, id))[m] == if m.imdbID == id then 0 else multiset(watched)[m]
  {
    if watched != [] {
      RemoveIdContents(watched[1..], id);
      assert watched == [watched[0]] + watched[1..];
    }
  }

  /** Filtering distributes over concatenation: the kept records stay in their order. */
  lemma {:induction false} RemoveIdConcat(a: seq<WatchedMovie>, b: seq<WatchedMovie>, id: string)
    ensures RemoveId(a + b, id) == RemoveId(a, id) + RemoveId(b, id)
  {
    if a != [] {
      assert (a + b)[1..] == a[1..] + b;
      RemoveIdConcat(a[1..], b, id);
    } else {
      assert a + b == b;
    }
  }

  /** Deleting an id that is not in the list changes nothing. */
  lemma {:induction false} RemoveIdAbsent(watched: seq<WatchedMovie>, id: string)
    requires !IsWatched(watched, id)
    ensures RemoveId(watched, id) == watched
  {
    if watched != [] {
      assert watched[0].imdbID != id;
      assert !IsWatched(watched[1..], id) by {
        forall i | 0 <= i < |watched[1..]| ensures watched[1..][i].imdbID != id {
          assert watched[1..][i] == watched[i + 1];
        }
      }
      RemoveIdAbsent(watched[1..], id);
      assert watched == [watched[0]] + watched[1..];
    }
  }

  /** Deleting twice is deleting once. */
  lemma RemoveIdIdempotent(watched: seq<WatchedMovie>, id: string)
    ensures RemoveId(RemoveId(watched, id), id) == RemoveId(watched, id)
  {
    RemoveIdAbsent(RemoveId(watched, id), id);
  }

  /** Deleting the one record with an id leaves the records before and after it, in order. */
  lemma RemoveIdSingle(before: seq<WatchedMovie>, m: WatchedMovie, after: seq<WatchedMovie>)
    requires !IsWatched(before, m.imdbID) && !IsWatched(after, m.imdbID)
    ensures RemoveId(before + [m] + after, m.imdbID) == before + after
  {
    var id := m.imdbID;
    assert RemoveId(before + [m], id) == before by {
      RemoveIdConcat(before, [m], id);
      RemoveIdAbsent(before, id);
      RemoveIdOnly(m);
      assert before + [] == before;
    }
    RemoveIdConcat(before + [m], after, id);
    RemoveIdAbsent(after, id);
  }

  lemma RemoveIdOnly(m: WatchedMovie)
    ensures RemoveId([m], m.imdbID) == []
  {
    assert [m][1..] == [];
  }

  /** Other ids are still watched after a delete exactly when they were before. */
  lemma RemoveIdKeepsOthers(watched: seq<WatchedMovie>, id: string, other: string)
    requires other != id
    ensures IsWatched(RemoveId(watched, id), other) <==> IsWatched(watched, other)
  {
    var r := RemoveId(watched, id);
    RemoveIdContents(watched, id);
    if IsWatched(watched, other) {
      var i :| 0 <= i < |watched| && watched[i].imdbID == other;
      assert watched[i] in multiset(watched);
      assert watched[i] in multiset(r);
      var j :| 0 <= j < |r| && r[j] == watched[i];
    }
    if IsWatched(r, other) {
      var j :| 0 <= j < |r| && r[j].imdbID == other;
      assert r[j] in multiset(r);
      assert r[j] in multiset(watched);
      var i :| 0 <= i < |watched| && watched[i] == r[j];
    }
  }

  /** A delete keeps the ids unique. */
  lemma {:induction false} RemoveIdPreservesUnique(watched: seq<WatchedMovie>, id: string)
    requires UniqueIds(watched)
    ensures UniqueIds(RemoveId(watched, id))
  {
    if watched != [] {
      var tail := watched[1..];
      assert UniqueIds(tail) by {
        forall i, j | 0 <= i < j < |tail| ensures tail[i].imdbID != tail[j].imdbID {
          assert tail[i] == watched[i + 1] && tail[j] == watched[j + 1];
        }
      }
      RemoveIdPreservesUnique(tail, id);
      var rest := RemoveId(tail, id);
      if watched[0].imdbID != id {
        assert !IsWatched(tail, watched[0].imdbID);
        RemoveIdKeepsOthers(tail, id, watched[0].imdbID);
        var r := [watched[0]] + rest;
        forall i, j | 0 <= i < j < |r| ensures r[i].imdbID != r[j].imdbID {
          if i == 0 {
            assert r[j] == rest[j - 1];
          } else {
            assert r[i] == rest[i - 1] && r[j] == rest[j - 1];
          }
        }
      }
    }
  }

  /** The "Add To Watched" button is offered only for an unwatched movie with a rating above 0. */
  predicate CanAdd(watched: seq<WatchedMovie>, id: string, userRating: int)
  {
    !IsWatched(watched, id) && userRating > 0
  }

  /** `newWatchedMovie` of `MovieDetails.handleAddWatched`. */
  function BuildRecord(id: string, detail: MovieDetail, userRating: int): WatchedMovie
  {
    WatchedMovie(id, detail.title, detail.year, detail.poster, detail.imdbRating,
                 Runtime.ParseRuntime(detail.runtime), userRating)
  }

  /**
   * The built record carries the selected id, the chosen rating, the leading number
   * of the runtime, and the title, year, poster and catalog rating of the detail.
   */
  lemma BuildRecordFields(id: string, detail: MovieDetail, userRating: int, minutes: nat, unit: string)
    requires detail.runtime == Runtime.Numeral(minutes) + " " + unit
    ensures BuildRecord(id, detail, userRating).imdbID == id
    ensures BuildRecord(id, detail, userRating).userRating == userRating
    ensures BuildRecord(id, detail, userRating).runtime == Some(minutes)
    ensures BuildRecord(id, detail, userRating).title == detail.title
    ensures BuildRecord(id, detail, userRating).year == detail.year
    ensures BuildRecord(id, detail, userRating).poster == detail.poster
    ensures BuildRecord(id, detail, userRating).imdbRating == detail.imdbRating
  {
    Runtime.ParseRuntimeOfNumeral(minutes, unit);
  }

  /**
   * Adding from the details view under its gate: afterwards the movie is
   * watched, its stored rating is the chosen one, and unique ids stay unique.
   */
  lemma AddFromDetailsEffect(watched: seq<WatchedMovie>, id: string, detail: MovieDetail, userRating: int)
    requires CanAdd(watched, id, userRating)
    ensures IsWatched(Appended(watched, BuildRecord(id, detail, userRating)), id)
    ensures FindRating(Appended(watched, BuildRecord(id, detail, userRating)), id) == Some(userRating)
    ensures UniqueIds(watched) ==> UniqueIds(Appended(watched, BuildRecord(id, detail, userRating)))
  {
    var m := BuildRecord(id, detail, userRating);
    var r := Appended(watched, m);
    assert r[|watched|] == m;
    forall j | 0 <= j < |watched| ensures r[j].imdbID != id {
      assert r[j] == watched[j];
    }
    FindFirst(r, id, |watched|);
  }

  /** Without the gate nothing stops a second record with the same id from being appended. */
  lemma AppendWatchedBreaksUnique(watched: seq<WatchedMovie>, m: WatchedMovie)
    requires IsWatched(watched, m.imdbID)
    ensures !UniqueIds(Appended(watched, m))
  {
    var i :| 0 <= i < |watched| && watched[i].imdbID == m.imdbID;
    var r := Appended(watched, m);
    assert r[i] == watched[i] && r[|watched|] == m;
  }

  /** The figures of `WachedSummary`; `avgRuntime` is `None` where a NaN runtime makes it NaN. */
  datatype Summary = Summary(count: nat, avgImdbRating: real, avgUserRating: real, avgRuntime: Option<real>)

  function ImdbRatings(watched: seq<WatchedMovie>): seq<real>
  {
    seq(|watched|, i requires 0 <= i < |watched| => watched[i].imdbRating)
  }

  function UserRatings(watched: seq<WatchedMovie>): seq<real>
  {
    seq(|watched|, i requires 0 <= i < |watched| => watched[i].userRating as real)
  }

  predicate RuntimesKnown(watched: seq<WatchedMovie>)
  {
    forall i :: 0 <= i < |watched| ==> watched[i].runtime != None
  }

  function Runtimes(watched: seq<WatchedMovie>): seq<real>
    requires RuntimesKnown(watched)
  {
    seq(|watched|, i requires 0 <= i < |watched| => watched[i].runtime.value as real)
  }

  /** `WachedSummary`: the count and the three averages over the list. */
  function Summarize(watched: seq<WatchedMovie>): Summary
  {
    Summary(|watched|,
            Stats.Average(ImdbRatings(watched)),
            Stats.Average(UserRatings(watched)),
            if RuntimesKnown(watched) then Some(Stats.Average(Runtimes(watched))) else None)
  }

  /** The summary of an empty list is all zeros; the count is always the list's length. */
  lemma SummarizeEmpty(watched: seq<WatchedMovie>)
    ensures Summarize(watched).count == |watched|
    ensures watched == [] ==> Summarize(watched) == Summary(0, 0.0, 0.0, Some(0.0))
  {
    if watched == [] {
      Stats.AverageIsMean([]);
      assert ImdbRatings(watched) == [] && UserRatings(watched) == [] && Runtimes(watched) == [];
    }
  }

  /** Ratings on the 1 to 10 star scale average to a value on that scale. */
  lemma SummarizeUserRatingBounds(watched: seq<WatchedMovie>)
    requires watched != []
    requires forall i :: 0 <= i < |watched| ==> 1 <= watched[i].userRating <= 10
    ensures 1.0 <= Summarize(watched).avgUserRating <= 10.0
  {
    Stats.AverageBounds(UserRatings(watched), 1.0, 10.0);
  }

  /** Two records rated 8.6, 10, 180 min and 7.2, 8, 114 min average to 7.9, 9 and 147 min. */
  lemma SummarizeExample(a: WatchedMovie, b: WatchedMovie)
    requires a.imdbRating == 8.6 && a.userRating == 10 && a.runtime == Some(180)
    requires b.imdbRating == 7.2 && b.userRating == 8 && b.runtime == Some(114)
    ensures Summarize([a, b]) == Summary(2, 7.9, 9.0, Some(147.0))
  {
    var w := [a, b];
    assert ImdbRatings(w) == [8.6, 7.2];
    assert UserRatings(w) == [10.0, 8.0];
    assert RuntimesKnown(w);
    assert Runtimes(w) == [180.0, 114.0];
    Stats.AverageIsMean([8.6, 7.2]);
    Stats.AverageIsMean([10.0, 8.0]);
    Stats.AverageIsMean([180.0, 114.0]);
  }
}
