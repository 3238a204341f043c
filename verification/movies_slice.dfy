/** The movies slice of the store: one page of movies, driven by the shared list reducer,
    plus the list query of `fetchMovies` and the way each movie thunk settles. */
module MoviesSlice {
  import opened Options
  import opened Thunks
  import Query
  import ListSlice

  /** The join record the backend attaches to a category nested in a movie. */
  datatype MovieCategory = MovieCategory(movieId: int, categoryId: int)

  datatype Category = Category(
    id: int, name: string, description: string, createdAt: string, updatedAt: string,
    movieCategory: Option<MovieCategory>)

  /** A movie as the backend returns it; `categories` is absent when the backend omits it. */
  datatype Movie = Movie(
    id: int, title: string, synopsis: string, releaseYear: int, createdAt: string, updatedAt: string,
    categories: Option<seq<Category>>)

  type State = ListSlice.State<Movie>
  type Event = ListSlice.Event<Movie>

  function MovieId(m: Movie): int {
    m.id
  }

  function Step(s: State, e: Event): State {
    ListSlice.Step(s, e, MovieId)
  }

  function Run(s: State, es: seq<Event>): State {
    ListSlice.Run(s, es, MovieId)
  }

  const TitleKey := "title"
  const FetchFailure := "Error al cargar películas"
  const CreateFailure := "Error al crear película"
  const UpdateFailure := "Error al actualizar película"
  const DeleteFailure := "Error al eliminar película"

  /** The argument of `fetchMovies`; either field may be left out. */
  datatype FetchArgs = FetchArgs(page: Option<int>, title: Option<string>)

  /** The query `fetchMovies` sends: `title` only for a non-empty title, then `page` only for a
      page above 1; a missing page counts as 1 and a missing title as empty. */
  function FetchQuery(args: FetchArgs): (q: seq<Query.Param>)
    ensures Query.Lookup(q, TitleKey).Some? <==> args.title.Some? && args.title.value != ""
    ensures Query.Lookup(q, TitleKey).Some? ==> Query.Lookup(q, TitleKey).value == args.title.value
    ensures Query.Lookup(q, Query.PageKey).Some? <==> args.page.Some? && args.page.value > 1
    ensures args.page.GetOr(1) > 1 ==> Query.Lookup(q, Query.PageKey) == Some(Query.Decimal(args.page.GetOr(1)))
    ensures forall i, j :: 0 <= i < |q| && 0 <= j < |q| && q[i].0 == TitleKey && q[j].0 == Query.PageKey ==> i < j
    ensures |q| == (if args.title.GetOr("") != "" then 1 else 0) + (if args.page.GetOr(1) > 1 then 1 else 0)
    ensures forall i :: 0 <= i < |q| ==> q[i].0 in {TitleKey, Query.PageKey}
    ensures Query.ReadListQuery(q, TitleKey)
            == (args.title.GetOr(""), if args.page.GetOr(1) > 1 then args.page.GetOr(1) else 1)
  {
    var title := args.title.GetOr("");
    var page := args.page.GetOr(1);
    Query.ListQueryRoundTrip(TitleKey, title, page);
    Query.ListQuery(TitleKey, title, page)
  }

  /** The action that settles a `fetchMovies` call. */
  function FetchSettled(r: Response<ListSlice.Page<Movie>>): Event {
    ListSlice.Fetch(SettleBody(r, FetchFailure))
  }

  /** The action that settles a `createMovie` call. */
  function CreateSettled(r: Response<Movie>): Event {
    ListSlice.Create(SettleBody(r, CreateFailure))
  }

  /** The action that settles an `updateMovie` call. */
  function UpdateSettled(r: Response<Movie>): Event {
    ListSlice.Update(SettleBody(r, UpdateFailure))
  }

  /** The action that settles `deleteMovie(id)`: the thunk ignores the reply body and returns
      the id it was given, or throws when the reply is not ok. */
  function DeleteSettled(id: int, r: Response<()>): (e: Event)
    ensures e.Delete?
    ensures e.deleted.Fulfilled? <==> Succeeded(r)
    ensures e.deleted.Fulfilled? ==> e.deleted.payload == id
    ensures r.Reply? && !r.ok ==> e.deleted == Rejected(Some(DeleteFailure))
    ensures r.TransportFailure? ==> e.deleted == Rejected(r.message)
  {
    ListSlice.Delete(Settle(r, id, DeleteFailure))
  }

  /** A whole `fetchMovies` call. On success the page replaces list and metadata, loading
      ends and no error is left; on a reply that is not ok loading ends, the list and the
      metadata are kept and the error reads "Error al cargar películas". */
  lemma FetchCall(s: State, r: Response<ListSlice.Page<Movie>>)
    ensures var t := Run(s, [ListSlice.Fetch(Pending), FetchSettled(r)]);
            && !t.loading
            && (Succeeded(r) ==> t.items == r.body.data && t.meta == r.body.meta && t.error == None)
            && (!Succeeded(r) ==> t.items == s.items && t.meta == s.meta && t.error.Some?)
            && (r.Reply? && !r.ok ==> t.error == Some(FetchFailure))
            && (r.TransportFailure? ==> t.error == Some(ListSlice.ErrorMessage(r.message)))
  {
    if Succeeded(r) {
      ListSlice.FetchSucceeds(s, r, FetchFailure, MovieId);
    } else {
      ListSlice.FetchFails(s, r, FetchFailure, MovieId);
    }
  }

  /** A whole `deleteMovie(id)` call. On success no held movie has that id, every other held
      movie is still there, and the metadata is not recomputed; on failure nothing changes. */
  lemma DeleteCall(s: State, id: int, r: Response<()>)
    ensures var t := Run(s, [ListSlice.Delete(Pending), DeleteSettled(id, r)]);
            && (Succeeded(r) ==> (forall i :: 0 <= i < |t.items| ==> t.items[i].id != id))
            && (Succeeded(r) ==> (forall i :: 0 <= i < |s.items| && s.items[i].id != id ==> s.items[i] in t.items))
            && t.meta == s.meta
            && (!Succeeded(r) ==> t == s)
  {
    ListSlice.RunTwo(s, ListSlice.Delete(Pending), DeleteSettled(id, r), MovieId);
  }

  /** A whole `createMovie` or `updateMovie` call leaves the slice as it was, whether it
      succeeds or not: the page re-fetches the list itself. */
  lemma SaveCallKeepsState(s: State, r: Response<Movie>)
    ensures Run(s, [ListSlice.Create(Pending), CreateSettled(r)]) == s
    ensures Run(s, [ListSlice.Update(Pending), UpdateSettled(r)]) == s
  {
    ListSlice.RunTwo(s, ListSlice.Create(Pending), CreateSettled(r), MovieId);
    ListSlice.RunTwo(s, ListSlice.Update(Pending), UpdateSettled(r), MovieId);
  }
}
