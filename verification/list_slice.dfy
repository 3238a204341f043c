/** The reducer both store slices share. Each slice holds one page of entities fetched from
    the backend together with a loading flag, an error message, the pagination metadata of
    that page and the current search term; the movies slice and the categories slice run
    the same cases on them and differ only in the entity type. The reducer is generic in
    the entity type `T` and in the function `id` that reads an entity's identifier. */
module ListSlice {
  import opened Options
  import opened Thunks
  import Seqs

  /** Pagination metadata as the backend reports it with every page. */
  datatype Meta = Meta(total: int, page: int, lastPage: int)

  const InitialMeta := Meta(0, 1, 1)

  /** The body of a successful list fetch. */
  datatype Page<+T> = Page(data: seq<T>, meta: Meta)

  datatype State<+T> = State(items: seq<T>, loading: bool, error: Option<string>, meta: Meta, searchTerm: string)

  /** The message stored when a rejected fetch carries no usable message. */
  const UnknownError := "Error desconocido"

  /** The store before any action: nothing held, nothing loading, no error, page 1 of 1. */
  function Initial<T>(): (s: State<T>)
    ensures s.items == [] && !s.loading && s.error == None && s.meta == InitialMeta && s.searchTerm == ""
    ensures Valid(s)
  {
    State([], false, None, InitialMeta, "")
  }

  /** The actions the slice reacts to: its two plain reducers and the lifecycle actions of
      the fetch, create, update and delete thunks. */
  datatype Event<+T> =
    | SetSearchTerm(term: string)
    | ClearError
    | Fetch(fetched: Lifecycle<Page<T>>)
    | Create(created: Lifecycle<T>)
    | Update(updated: Lifecycle<T>)
    | Delete(deleted: Lifecycle<int>)

  /** A stored error is either absent or a non-empty message. */
  predicate Valid<T>(s: State<T>) {
    s.error != Some("")
  }

  datatype Field = Items | Loading | Error | MetaField | SearchTerm

  /** The fields in which two states differ. */
  function Changed<T(==)>(s: State<T>, r: State<T>): set<Field> {
    (if s.items != r.items then {Items} else {})
    + (if s.loading != r.loading then {Loading} else {})
    + (if s.error != r.error then {Error} else {})
    + (if s.meta != r.meta then {MetaField} else {})
    + (if s.searchTerm != r.searchTerm then {SearchTerm} else {})
  }

  /** The fields each action's case is allowed to assign. Create and update have no effect
      on the slice (the caller re-fetches); the rejected and pending actions of create,
      update and delete have no case at all. */
  function Writes<T>(e: Event<T>): set<Field> {
    match e
    case SetSearchTerm(_) => {SearchTerm}
    case ClearError => {Error}
    case Fetch(Pending) => {Loading, Error}
    case Fetch(Fulfilled(_)) => {Loading, Items, MetaField}
    case Fetch(Rejected(_)) => {Loading, Error}
    case Create(_) => {}
    case Update(_) => {}
    case Delete(Fulfilled(_)) => {Items}
    case Delete(_) => {}
  }

  /** The message a rejected fetch stores: the error's own message, or the fallback when it
      is absent or empty (JavaScript's `message || fallback`). */
  function ErrorMessage(m: Option<string>): (text: string)
    ensures text != ""
    ensures m.Some? && m.value != "" ==> text == m.value
    ensures m.None? || m.value == "" ==> text == UnknownError
  {
    if m.Some? && m.value != "" then m.value else UnknownError
  }

  /** The filter a successful delete of `k` applies: keep every entity whose id is not `k`. */
  function KeepOthers<T>(id: T -> int, k: int): T -> bool {
    x => id(x) != k
  }

  /** The reducer. */
  function Step<T(==)>(s: State<T>, e: Event<T>, id: T -> int): (r: State<T>)
    ensures Changed(s, r) <= Writes(e)
    ensures e.SetSearchTerm? ==> r.searchTerm == e.term
    ensures e.ClearError? ==> r.error == None
    ensures e == Fetch(Pending) ==> r.loading && r.error == None
    ensures e.Fetch? && e.fetched.Fulfilled? ==>
              !r.loading && r.items == e.fetched.payload.data && r.meta == e.fetched.payload.meta
    ensures e.Fetch? && e.fetched.Rejected? ==>
              !r.loading && r.error == Some(ErrorMessage(e.fetched.message))
    ensures e.Delete? && e.deleted.Fulfilled? ==>
              (forall i :: 0 <= i < |r.items| ==> r.items[i] in s.items && id(r.items[i]) != e.deleted.payload)
              && (forall i :: 0 <= i < |s.items| && id(s.items[i]) != e.deleted.payload ==> s.items[i] in r.items)
    ensures Valid(s) ==> Valid(r)
  {
    match e
    case SetSearchTerm(term) => s.(searchTerm := term)
    case ClearError => s.(error := None)
    case Fetch(Pending) => s.(loading := true, error := None)
    case Fetch(Fulfilled(page)) => s.(loading := false, items := page.data, meta := page.meta)
    case Fetch(Rejected(m)) => s.(loading := false, error := Some(ErrorMessage(m)))
    case Create(_) => s
    case Update(_) => s
    case Delete(Fulfilled(k)) => s.(items := Seqs.Filter(s.items, KeepOthers(id, k)))
    case Delete(_) => s
  }

  /** The state after the actions `es`, applied in order starting from `s`. */
  function Run<T(==)>(s: State<T>, es: seq<Event<T>>, id: T -> int): State<T>
    decreases |es|
  {
    if es == [] then s else Run(Step(s, es[0], id), es[1..], id)
  }

  lemma {:induction false} RunConcat<T>(s: State<T>, a: seq<Event<T>>, b: seq<Event<T>>, id: T -> int)
    ensures Run(s, a + b, id) == Run(Run(s, a, id), b, id)
    decreases |a|
  {
    if a == [] {
      assert a + b == b;
    } else {
      assert (a + b)[0] == a[0];
      assert (a + b)[1..] == a[1..] + b;
      RunConcat(Step(s, a[0], id), a[1..], b, id);
    }
  }

  /** No sequence of actions ever stores an empty error message. */
  lemma {:induction false} RunValid<T>(s: State<T>, es: seq<Event<T>>, id: T -> int)
    requires Valid(s)
    ensures Valid(Run(s, es, id))
    decreases |es|
  {
    if es != [] {
      RunValid(Step(s, es[0], id), es[1..], id);
    }
  }

  /** A create or update action, or a delete action that is not a success, leaves the state
      exactly as it was: in particular a failed delete keeps the list. */
  lemma MutationKeepsState<T>(s: State<T>, e: Event<T>, id: T -> int)
    requires e.Create? || e.Update? || (e.Delete? && !e.deleted.Fulfilled?)
    ensures Step(s, e, id) == s
  {
  }

  /** Applying the same successful delete twice is applying it once. */
  lemma DeleteIdempotent<T>(s: State<T>, k: int, id: T -> int)
    ensures Step(Step(s, Delete(Fulfilled(k)), id), Delete(Fulfilled(k)), id) == Step(s, Delete(Fulfilled(k)), id)
  {
    Seqs.FilterIdempotent(s.items, KeepOthers(id, k));
  }

  /** When the deleted entity is the only one with its id, the delete splices it out of the
      list: what came before it and what came after it are kept, in order. The pagination
      metadata is left as it was, not recomputed. */
  lemma DeleteSplices<T>(s: State<T>, before: seq<T>, x: T, after: seq<T>, id: T -> int)
    requires s.items == before + [x] + after
    requires forall i :: 0 <= i < |before| ==> id(before[i]) != id(x)
    requires forall i :: 0 <= i < |after| ==> id(after[i]) != id(x)
    ensures Step(s, Delete(Fulfilled(id(x))), id).items == before + after
    ensures Step(s, Delete(Fulfilled(id(x))), id).meta == s.meta
  {
    var keep := KeepOthers(id, id(x));
    assert forall y :: y in before ==> keep(y);
    assert forall y :: y in after ==> keep(y);
    Seqs.FilterSplice(before, x, after, keep);
  }

  predicate IsFetched<T>(e: Event<T>) {
    e.Fetch? && e.fetched.Fulfilled?
  }

  /** The ids of the successful deletes among `es`. */
  function Deleted<T>(es: seq<Event<T>>): set<int>
    decreases |es|
  {
    if es == [] then {}
    else (if es[0].Delete? && es[0].deleted.Fulfilled? then {es[0].deleted.payload} else {}) + Deleted(es[1..])
  }

  function KeepUndeleted<T>(id: T -> int, ks: set<int>): T -> bool {
    x => id(x) !in ks
  }

  /** Without a fetched page in between, the held list only loses the entities deleted
      meanwhile, and the metadata stays as it was. */
  lemma {:induction false} WithoutFetch<T>(s: State<T>, es: seq<Event<T>>, id: T -> int)
    requires forall j :: 0 <= j < |es| ==> !IsFetched(es[j])
    ensures Run(s, es, id).items == Seqs.Filter(s.items, KeepUndeleted(id, Deleted(es)))
    ensures Run(s, es, id).meta == s.meta
    decreases |es|
  {
    if es == [] {
      Seqs.FilterKeepsAll(s.items, KeepUndeleted(id, {}));
    } else {
      var next := Step(s, es[0], id);
      assert !IsFetched(es[0]);
      WithoutFetch(next, es[1..], id);
      if es[0].Delete? && es[0].deleted.Fulfilled? {
        var k := es[0].deleted.payload;
        Seqs.FilterFilter(s.items, KeepOthers(id, k), KeepUndeleted(id, Deleted(es[1..])), KeepUndeleted(id, Deleted(es)));
      } else {
        assert next.items == s.items;
        assert Deleted(es) == Deleted(es[1..]);
      }
    }
  }

  /** The last page to arrive wins, whatever order the requests were sent in: after the
      actions `es`, the held list is the list of the last fetched page minus what was deleted
      after it arrived, and the metadata is that page's metadata. */
  lemma LastFetchWins<T>(s: State<T>, es: seq<Event<T>>, i: nat, id: T -> int)
    requires i < |es| && IsFetched(es[i])
    requires forall j :: i < j < |es| ==> !IsFetched(es[j])
    ensures Run(s, es, id).meta == es[i].fetched.payload.meta
    ensures Run(s, es, id).items == Seqs.Filter(es[i].fetched.payload.data, KeepUndeleted(id, Deleted(es[i + 1..])))
    ensures Deleted(es[i + 1..]) == {} ==> Run(s, es, id).items == es[i].fetched.payload.data
  {
    var page := es[i].fetched.payload;
    assert es == es[..i] + [es[i]] + es[i + 1..];
    RunConcat(s, es[..i] + [es[i]], es[i + 1..], id);
    RunConcat(s, es[..i], [es[i]], id);
    var arrived := Run(s, es[..i] + [es[i]], id);
    assert arrived.items == page.data && arrived.meta == page.meta;
    WithoutFetch(arrived, es[i + 1..], id);
    if Deleted(es[i + 1..]) == {} {
      Seqs.FilterKeepsAll(page.data, KeepUndeleted(id, {}));
    }
  }

  /** Two fetches sent in order whose replies arrive in the opposite order: the state ends
      with the page of the request sent first, although the other request is the newer one. */
  lemma OutOfOrderReplies<T>(s: State<T>, first: Page<T>, second: Page<T>, id: T -> int)
    ensures var es := [Fetch(Pending), Fetch(Pending), Fetch(Fulfilled(second)), Fetch(Fulfilled(first))];
            Run(s, es, id).items == first.data && Run(s, es, id).meta == first.meta && !Run(s, es, id).loading
  {
    var es := [Fetch(Pending), Fetch(Pending), Fetch(Fulfilled(second)), Fetch(Fulfilled(first))];
    LastFetchWins(s, es, 3, id);
    RunConcat(s, es[..3], [es[3]], id);
    assert es[..3] + [es[3]] == es;
  }

  /** Until a page has been fetched, the list stays empty and the metadata stays at its
      initial value, whatever else happens. */
  lemma NothingBeforeFirstFetch<T>(es: seq<Event<T>>, id: T -> int)
    requires forall j :: 0 <= j < |es| ==> !IsFetched(es[j])
    ensures Run(Initial(), es, id).items == []
    ensures Run(Initial(), es, id).meta == InitialMeta
  {
    WithoutFetch(Initial(), es, id);
  }

  /** The search term of the last `SetSearchTerm` in `es`, or `initial` when there is none. */
  function LatestTerm<T>(es: seq<Event<T>>, initial: string): string
    decreases |es|
  {
    if es == [] then initial
    else if es[|es| - 1].SetSearchTerm? then es[|es| - 1].term
    else LatestTerm(es[..|es| - 1], initial)
  }

  /** The search term is the one most recently set; nothing else moves it. */
  lemma {:induction false} SearchTermIsLatest<T>(s: State<T>, es: seq<Event<T>>, id: T -> int)
    ensures Run(s, es, id).searchTerm == LatestTerm(es, s.searchTerm)
    decreases |es|
  {
    if es != [] {
      var n := |es| - 1;
      assert es[..n] + [es[n]] == es;
      SearchTermIsLatest(s, es[..n], id);
      RunConcat(s, es[..n], [es[n]], id);
    }
  }

  /** Running two actions is stepping twice. */
  lemma RunTwo<T>(s: State<T>, a: Event<T>, b: Event<T>, id: T -> int)
    ensures Run(s, [a, b], id) == Step(Step(s, a, id), b, id)
  {
    assert [a, b][0] == a && [a, b][1..] == [b];
    assert Run(s, [a, b], id) == Run(Step(s, a, id), [b], id);
    assert [b][0] == b && [b][1..] == [];
    assert Run(Step(s, a, id), [b], id) == Run(Step(Step(s, a, id), b, id), [], id);
  }

  /** A list fetch that succeeds: its pending action and its fulfilled action together clear
      the error, end loading and replace list and metadata by the reply's, whatever the
      state was; the search term is untouched. */
  lemma FetchSucceeds<T>(s: State<T>, r: Response<Page<T>>, failure: string, id: T -> int)
    requires Succeeded(r)
    ensures var t := Run(s, [Fetch(Pending), Fetch(SettleBody(r, failure))], id);
            t.items == r.body.data && t.meta == r.body.meta && !t.loading && t.error == None
            && t.searchTerm == s.searchTerm
  {
    RunTwo(s, Fetch(Pending), Fetch(SettleBody(r, failure)), id);
  }

  /** A list fetch that fails: loading ends, an error is stored — the thunk's own message when
      the reply was not ok — and the previous list and metadata are kept. */
  lemma FetchFails<T>(s: State<T>, r: Response<Page<T>>, failure: string, id: T -> int)
    requires !Succeeded(r) && failure != ""
    ensures var t := Run(s, [Fetch(Pending), Fetch(SettleBody(r, failure))], id);
            t.items == s.items && t.meta == s.meta && !t.loading && t.error.Some? && t.error.value != ""
            && (r.Reply? ==> t.error == Some(failure))
            && (r.TransportFailure? ==> t.error == Some(ErrorMessage(r.message)))
  {
    RunTwo(s, Fetch(Pending), Fetch(SettleBody(r, failure)), id);
  }
}
