/** The categories slice of the store: one page of categories driven by the shared list
    reducer, plus the unpaginated list of all categories that feeds the movie form's picker. */
module CategoriesSlice {
  import opened Options
  import opened Thunks
  import Query
  import ListSlice

  /** The join record the backend attaches to a movie nested in a category. */
  datatype MovieCategory = MovieCategory(movieId: int, categoryId: int)

  datatype Movie = Movie(
    id: int, title: string, synopsis: string, releaseYear: int, createdAt: string, updatedAt: string,
    movieCategory: Option<MovieCategory>)

  /** A category as the backend returns it; `movies` is absent when the backend omits it. */
  datatype Category = Category(
    id: int, name: string, description: string, createdAt: string, updatedAt: string,
    movies: Option<seq<Movie>>)

  /** The body of a successful `fetchAllCategories` reply. */
  datatype Listing = Listing(data: seq<Category>)

  /** The paginated list with its flags (`categories`, `loading`, `error`, `meta`,
      `searchTerm`) and the full list `allCategories`. */
  datatype State = State(list: ListSlice.State<Category>, allCategories: seq<Category>)

  /** The actions of the slice: those the shared list reducer handles, and the lifecycle
      actions of `fetchAllCategories`. */
  datatype Event = List(event: ListSlice.Event<Category>) | FetchAll(all: Lifecycle<Listing>)

  function CategoryId(c: Category): int {
    c.id
  }

  function Initial(): (s: State)
    ensures s.list == ListSlice.Initial()
    ensures s.allCategories == []
  {
    State(ListSlice.Initial(), [])
  }

  /** The reducer: list actions go to the shared list reducer and never touch
      `allCategories`; a fetched full list replaces `allCategories` and nothing else; the
      pending and rejected actions of `fetchAllCategories` have no case and change nothing. */
  function Step(s: State, e: Event): (r: State)
    ensures e.List? ==> r.list == ListSlice.Step(s.list, e.event, CategoryId)
    ensures e.List? ==> r.allCategories == s.allCategories
    ensures e.FetchAll? ==> r.list == s.list
    ensures e.FetchAll? && e.all.Fulfilled? ==> r.allCategories == e.all.payload.data
    ensures e.FetchAll? && !e.all.Fulfilled? ==> r == s
  {
    match e
    case List(event) => s.(list := ListSlice.Step(s.list, event, CategoryId))
    case FetchAll(Fulfilled(listing)) => s.(allCategories := listing.data)
    case FetchAll(_) => s
  }

  function Run(s: State, es: seq<Event>): State
    decreases |es|
  {
    if es == [] then s else Run(Step(s, es[0]), es[1..])
  }

  /** The list actions among `es`, in order. */
  function ListEvents(es: seq<Event>): seq<ListSlice.Event<Category>>
    decreases |es|
  {
    if es == [] then []
    else (if es[0].List? then [es[0].event] else []) + ListEvents(es[1..])
  }

  /** The data of the last fetched full list in `es`, or `initial` when there is none. */
  function LatestAll(es: seq<Event>, initial: seq<Category>): seq<Category>
    decreases |es|
  {
    if es == [] then initial
    else if es[|es| - 1].FetchAll? && es[|es| - 1].all.Fulfilled? then es[|es| - 1].all.payload.data
    else LatestAll(es[..|es| - 1], initial)
  }

  lemma {:induction false} RunConcat(s: State, a: seq<Event>, b: seq<Event>)
    ensures Run(s, a + b) == Run(Run(s, a), b)
    decreases |a|
  {
    if a == [] {
      assert a + b == b;
    } else {
      assert (a + b)[0] == a[0];
      assert (a + b)[1..] == a[1..] + b;
      RunConcat(Step(s, a[0]), a[1..], b);
    }
  }

  /** The two parts of the slice evolve independently: the paginated list is exactly what
      the shared list reducer makes of the list actions alone, so every fact about
      `ListSlice.Run` holds of the categories page, and the full list is the last one
      fetched. */
  lemma {:induction false} RunSeparates(s: State, es: seq<Event>)
    ensures Run(s, es).list == ListSlice.Run(s.list, ListEvents(es), CategoryId)
    decreases |es|
  {
    if es != [] {
      RunSeparates(Step(s, es[0]), es[1..]);
      if es[0].List? {
        assert ListEvents(es) == [es[0].event] + ListEvents(es[1..]);
        assert ([es[0].event] + ListEvents(es[1..]))[1..] == ListEvents(es[1..]);
      } else {
        assert ListEvents(es) == ListEvents(es[1..]);
      }
    }
  }

  /** `allCategories` is the data of the most recently fetched full list; list actions,
      deletes included, never change it. */
  lemma {:induction false} AllCategoriesIsLatest(s: State, es: seq<Event>)
    ensures Run(s, es).allCategories == LatestAll(es, s.allCategories)
    decreases |es|
  {
    if es != [] {
      var n := |es| - 1;
      assert es[..n] + [es[n]] == es;
      AllCategoriesIsLatest(s, es[..n]);
      RunConcat(s, es[..n], [es[n]]);
      assert [es[n]][1..] == [];
    }
  }

  const NameKey := "name"
  const FetchFailure := "Error al cargar categorías"
  const FetchAllFailure := "Error al cargar todas las categorías"
  const CreateFailure := "Error al crear categoría"
  const UpdateFailure := "Error al actualizar categoría"
  const DeleteFailure := "Error al eliminar categoría"

  /** The argument of `fetchCategories`; either field may be left out. */
  datatype FetchArgs = FetchArgs(page: Option<int>, name: Option<string>)

  /** The query `fetchCategories` sends: `name` only for a non-empty name, then `page` only
      for a page above 1; a missing page counts as 1 and a missing name as empty. */
  function FetchQuery(args: FetchArgs): (q: seq<Query.Param>)
    ensures Query.Lookup(q, NameKey).Some? <==> args.name.Some? && args.name.value != ""
    ensures Query.Lookup(q, NameKey).Some? ==> Query.Lookup(q, NameKey).value == args.name.value
    ensures Query.Lookup(q, Query.PageKey).Some? <==> args.page.Some? && args.page.value > 1
    ensures args.page.GetOr(1) > 1 ==> Query.Lookup(q, Query.PageKey) == Some(Query.Decimal(args.page.GetOr(1)))
    ensures forall i, j :: 0 <= i < |q| && 0 <= j < |q| && q[i].0 == NameKey && q[j].0 == Query.PageKey ==> i < j
    ensures |q| == (if args.name.GetOr("") != "" then 1 else 0) + (if args.page.GetOr(1) > 1 then 1 else 0)
    ensures forall i :: 0 <= i < |q| ==> q[i].0 in {NameKey, Query.PageKey}
    ensures Query.ReadListQuery(q, NameKey)
            == (args.name.GetOr(""), if args.page.GetOr(1) > 1 then args.page.GetOr(1) else 1)
  {
    var name := args.name.GetOr("");
    var page := args.page.GetOr(1);
    Query.ListQueryRoundTrip(NameKey, name, page);
    Query.ListQuery(NameKey, name, page)
  }

  /** The action that settles a `fetchCategories` call. */
  function FetchSettled(r: Response<ListSlice.Page<Category>>): Event {
    List(ListSlice.Fetch(SettleBody(r, FetchFailure)))
  }

  /** The action that settles a `fetchAllCategories` call. */
  function FetchAllSettled(r: Response<Listing>): Event {
    FetchAll(SettleBody(r, FetchAllFailure))
  }

  /** The action that settles a `createCategory` call. */
  function CreateSettled(r: Response<Category>): Event {
    List(ListSlice.Create(SettleBody(r, CreateFailure)))
  }

  /** The action that settles an `updateCategory` call. */
  function UpdateSettled(r: Response<Category>): Event {
    List(ListSlice.Update(SettleBody(r, UpdateFailure)))
  }

  /** The action that settles `deleteCategory(id)`: the id on an ok reply, else a rejection. */
  function DeleteSettled(id: int, r: Response<()>): (e: Event)
    ensures e.List? && e.event.Delete?
    ensures e.event.deleted.Fulfilled? <==> Succeeded(r)
    ensures e.event.deleted.Fulfilled? ==> e.event.deleted.payload == id
    ensures r.Reply? && !r.ok ==> e.event.deleted == Rejected(Some(DeleteFailure))
    ensures r.TransportFailure? ==> e.event.deleted == Rejected(r.message)
  {
    List(ListSlice.Delete(Settle(r, id, DeleteFailure)))
  }

  lemma RunTwo(s: State, a: Event, b: Event)
    ensures Run(s, [a, b]) == Step(Step(s, a), b)
  {
    assert [a, b][0] == a && [a, b][1..] == [b];
    assert Run(s, [a, b]) == Run(Step(s, a), [b]);
    assert [b][0] == b && [b][1..] == [];
    assert Run(Step(s, a), [b]) == Run(Step(Step(s, a), b), []);
  }

  /** A whole `fetchCategories` call. On success the page replaces list and metadata, loading
      ends and no error is left; on a reply that is not ok loading ends, the list and the
      metadata are kept and the error reads "Error al cargar categorías". `allCategories` is
      untouched either way. */
  lemma FetchCall(s: State, r: Response<ListSlice.Page<Category>>)
    ensures var t := Run(s, [List(ListSlice.Fetch(Pending)), FetchSettled(r)]);
            && !t.list.loading
            && t.allCategories == s.allCategories
            && (Succeeded(r) ==> t.list.items == r.body.data && t.list.meta == r.body.meta && t.list.error == None)
            && (!Succeeded(r) ==> t.list.items == s.list.items && t.list.meta == s.list.meta && t.list.error.Some?)
            && (r.Reply? && !r.ok ==> t.list.error == Some(FetchFailure))
            && (r.TransportFailure? ==> t.list.error == Some(ListSlice.ErrorMessage(r.message)))
  {
    RunTwo(s, List(ListSlice.Fetch(Pending)), FetchSettled(r));
    ListSlice.RunTwo(s.list, ListSlice.Fetch(Pending), ListSlice.Fetch(SettleBody(r, FetchFailure)), CategoryId);
    if Succeeded(r) {
      ListSlice.FetchSucceeds(s.list, r, FetchFailure, CategoryId);
    } else {
      ListSlice.FetchFails(s.list, r, FetchFailure, CategoryId);
    }
  }

  /** A whole `fetchAllCategories` call: on success `allCategories` becomes the reply's data
      and the paginated list, with its loading flag and error, is untouched; a failure
      changes nothing at all. */
  lemma FetchAllCall(s: State, r: Response<Listing>)
    ensures var t := Run(s, [FetchAll(Pending), FetchAllSettled(r)]);
            && t.list == s.list
            && (Succeeded(r) ==> t.allCategories == r.body.data)
            && (!Succeeded(r) ==> t == s)
  {
    RunTwo(s, FetchAll(Pending), FetchAllSettled(r));
  }

  /** A whole `deleteCategory(id)` call. On success no category of the page has that id,
      every other one is still there, the metadata is not recomputed and `allCategories`
      still holds the deleted category; on failure nothing changes. */
  lemma DeleteCall(s: State, id: int, r: Response<()>)
    ensures var t := Run(s, [List(ListSlice.Delete(Pending)), DeleteSettled(id, r)]);
            && (Succeeded(r) ==> (forall i :: 0 <= i < |t.list.items| ==> t.list.items[i].id != id))
            && (Succeeded(r) ==> (forall i :: 0 <= i < |s.list.items| && s.list.items[i].id != id ==> s.list.items[i] in t.list.items))
            && t.list.meta == s.list.meta
            && t.allCategories == s.allCategories
            && (!Succeeded(r) ==> t == s)
  {
    RunTwo(s, List(ListSlice.Delete(Pending)), DeleteSettled(id, r));
  }

  /** A whole `createCategory` or `updateCategory` call leaves the slice as it was. */
  lemma SaveCallKeepsState(s: State, r: Response<Category>)
    ensures Run(s, [List(ListSlice.Create(Pending)), CreateSettled(r)]) == s
    ensures Run(s, [List(ListSlice.Update(Pending)), UpdateSettled(r)]) == s
  {
    RunTwo(s, List(ListSlice.Create(Pending)), CreateSettled(r));
    RunTwo(s, List(ListSlice.Update(Pending)), UpdateSettled(r));
  }
}
