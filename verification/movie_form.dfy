/** The movie form: a draft of the movie's fields and its selected category ids, filled in
    from the movie being edited, and a submit that creates or updates it. */
module MovieForm {
  import opened Options
  import Seqs
  import Thunks
  import FormCore
  import MoviesSlice

  /** The form's data, which is also the body sent to the backend. */
  datatype Draft = Draft(title: string, synopsis: string, releaseYear: int, categoryIds: seq<int>)

  /** The draft of a new form: empty texts, no category selected, and the current year
      (read from the clock, hence a parameter). */
  function InitialDraft(currentYear: int): (d: Draft)
    ensures d.title == "" && d.synopsis == "" && d.releaseYear == currentYear
    ensures forall id :: !IsChecked(d, id)
  {
    Draft("", "", currentYear, [])
  }

  function CategoryIdOf(c: MoviesSlice.Category): int {
    c.id
  }

  /** The ids of the movie's categories in the order given, none when the movie carries no
      category list. */
  function CategoryIds(movie: MoviesSlice.Movie): (ids: seq<int>)
    ensures movie.categories.None? ==> ids == []
    ensures movie.categories.Some? ==>
              |ids| == |movie.categories.value|
              && forall i :: 0 <= i < |ids| ==> ids[i] == movie.categories.value[i].id
  {
    match movie.categories
    case None => []
    case Some(categories) => Seqs.Map(categories, CategoryIdOf)
  }

  /** The pre-fill effect: editing a movie replaces the whole draft with the movie's title,
      synopsis, year and category ids; without a movie the draft is left alone. */
  function Prefill(d: Draft, movie: Option<MoviesSlice.Movie>): (r: Draft)
    ensures movie.None? ==> r == d
    ensures movie.Some? ==>
              r.title == movie.value.title && r.synopsis == movie.value.synopsis
              && r.releaseYear == movie.value.releaseYear
    ensures movie.Some? ==> r.categoryIds == CategoryIds(movie.value)
  {
    match movie
    case None => d
    case Some(m) => Draft(m.title, m.synopsis, m.releaseYear, CategoryIds(m))
  }

  /** After the pre-fill a category box is checked exactly when the edited movie belongs to
      that category. */
  lemma PrefillChecks(d: Draft, movie: MoviesSlice.Movie, id: int)
    ensures IsChecked(Prefill(d, Some(movie)), id)
            <==> movie.categories.Some? && exists i :: 0 <= i < |movie.categories.value| && movie.categories.value[i].id == id
  {
  }

  /** A change of a category box: only the selection moves. */
  function ToggleCategory(d: Draft, id: int, checked: bool): (r: Draft)
    ensures r.title == d.title && r.synopsis == d.synopsis && r.releaseYear == d.releaseYear
    ensures r.categoryIds == FormCore.Toggle(d.categoryIds, id, checked)
  {
    d.(categoryIds := FormCore.Toggle(d.categoryIds, id, checked))
  }

  /** Whether the box of category `id` is shown checked. */
  predicate IsChecked(d: Draft, id: int) {
    FormCore.IsChecked(d.categoryIds, id)
  }

  /** The submit handler, given the backend's reply to the dispatched call: it updates the
      edited movie by its id, or creates a new one, with the draft as body, and calls
      `onSuccess` only when the call is fulfilled; the error is logged when the call fails
      or when the parent's `onSuccess` throws. */
  function HandleSubmit(movie: Option<MoviesSlice.Movie>, d: Draft, reply: Thunks.Response<MoviesSlice.Movie>,
                        callbackThrows: bool)
    : (effects: seq<FormCore.Effect<Draft>>)
    ensures |effects| >= 3
    ensures effects[0] == FormCore.SetLoading(true) && effects[|effects| - 1] == FormCore.SetLoading(false)
    ensures movie.Some? ==> effects[1] == FormCore.Dispatch(FormCore.UpdateExisting(movie.value.id), d)
    ensures movie.None? ==> effects[1] == FormCore.Dispatch(FormCore.CreateNew, d)
    ensures FormCore.NotifySuccess in effects <==> Thunks.Succeeded(reply)
    ensures FormCore.LogError in effects <==> !Thunks.Succeeded(reply) || callbackThrows
    ensures forall i :: 0 < i < |effects| - 1 ==> !effects[i].SetLoading?
    ensures forall i :: 0 <= i < |effects| && effects[i].Dispatch? ==> i == 1
    ensures |effects| == if Thunks.Succeeded(reply) && callbackThrows then 5 else 4
    ensures effects[2] == if Thunks.Succeeded(reply) then FormCore.NotifySuccess else FormCore.LogError
  {
    var settled := if movie.Some? then MoviesSlice.UpdateSettled(reply).updated else MoviesSlice.CreateSettled(reply).created;
    FormCore.Submit(if movie.Some? then Some(movie.value.id) else None, d, settled.Fulfilled?, callbackThrows)
  }

  /** The submit button's text for the form's loading flag and the movie being edited, if any. */
  function ButtonLabel(loading: bool, movie: Option<MoviesSlice.Movie>): (text: string)
    ensures text == FormCore.SavingLabel <==> loading
    ensures text == FormCore.UpdateLabel <==> !loading && movie.Some?
    ensures text == FormCore.CreateLabel <==> !loading && movie.None?
  {
    FormCore.ButtonLabel(loading, movie.Some?)
  }
}
