/** The category form: a draft of the category's fields and its selected movie ids, filled
    in from the category being edited, and a submit that creates or updates it. */
module CategoryForm {
  import opened Options
  import Seqs
  import Thunks
  import FormCore
  import CategoriesSlice

  /** The form's data, which is also the body sent to the backend. */
  datatype Draft = Draft(name: string, description: string, movieIds: seq<int>)

  /** The draft of a new form: empty texts and no movie selected. */
  function InitialDraft(): (d: Draft)
    ensures d.name == "" && d.description == ""
    ensures forall id :: !IsChecked(d, id)
  {
    Draft("", "", [])
  }

  function MovieIdOf(m: CategoriesSlice.Movie): int {
    m.id
  }

  /** The ids of the category's movies in the order given, none when the category carries no
      movie list. */
  function MovieIds(category: CategoriesSlice.Category): (ids: seq<int>)
    ensures category.movies.None? ==> ids == []
    ensures category.movies.Some? ==>
              |ids| == |category.movies.value|
              && forall i :: 0 <= i < |ids| ==> ids[i] == category.movies.value[i].id
  {
    match category.movies
    case None => []
    case Some(movies) => Seqs.Map(movies, MovieIdOf)
  }

  /** The pre-fill effect: editing a category replaces the whole draft with its name,
      description and movie ids; without a category the draft is left alone. */
  function Prefill(d: Draft, category: Option<CategoriesSlice.Category>): (r: Draft)
    ensures category.None? ==> r == d
    ensures category.Some? ==> r.name == category.value.name && r.description == category.value.description
    ensures category.Some? ==> r.movieIds == MovieIds(category.value)
  {
    match category
    case None => d
    case Some(c) => Draft(c.name, c.description, MovieIds(c))
  }

  /** After the pre-fill a movie box is checked exactly when the movie belongs to the edited
      category. */
  lemma PrefillChecks(d: Draft, category: CategoriesSlice.Category, id: int)
    ensures IsChecked(Prefill(d, Some(category)), id)
            <==> category.movies.Some? && exists i :: 0 <= i < |category.movies.value| && category.movies.value[i].id == id
  {
  }

  /** A change of a movie box: only the selection moves. */
  function ToggleMovie(d: Draft, id: int, checked: bool): (r: Draft)
    ensures r.name == d.name && r.description == d.description
    ensures r.movieIds == FormCore.Toggle(d.movieIds, id, checked)
  {
    d.(movieIds := FormCore.Toggle(d.movieIds, id, checked))
  }

  /** Whether the box of movie `id` is shown checked. */
  predicate IsChecked(d: Draft, id: int) {
    FormCore.IsChecked(d.movieIds, id)
  }

  /** The submit handler, given the backend's reply to the dispatched call: it updates the
      edited category by its id, or creates a new one, with the draft as body, and calls
      `onSuccess` only when the call is fulfilled; the error is logged when the call fails
      or when the parent's `onSuccess` throws. */
  function HandleSubmit(category: Option<CategoriesSlice.Category>, d: Draft, reply: Thunks.Response<CategoriesSlice.Category>,
                        callbackThrows: bool)
    : (effects: seq<FormCore.Effect<Draft>>)
    ensures |effects| >= 3
    ensures effects[0] == FormCore.SetLoading(true) && effects[|effects| - 1] == FormCore.SetLoading(false)
    ensures category.Some? ==> effects[1] == FormCore.Dispatch(FormCore.UpdateExisting(category.value.id), d)
    ensures category.None? ==> effects[1] == FormCore.Dispatch(FormCore.CreateNew, d)
    ensures FormCore.NotifySuccess in effects <==> Thunks.Succeeded(reply)
    ensures FormCore.LogError in effects <==> !Thunks.Succeeded(reply) || callbackThrows
    ensures forall i :: 0 < i < |effects| - 1 ==> !effects[i].SetLoading?
    ensures forall i :: 0 <= i < |effects| && effects[i].Dispatch? ==> i == 1
    ensures |effects| == if Thunks.Succeeded(reply) && callbackThrows then 5 else 4
    ensures effects[2] == if Thunks.Succeeded(reply) then FormCore.NotifySuccess else FormCore.LogError
  {
    var settled := if category.Some? then CategoriesSlice.UpdateSettled(reply).event.updated
                   else CategoriesSlice.CreateSettled(reply).event.created;
    FormCore.Submit(if category.Some? then Some(category.value.id) else None, d, settled.Fulfilled?, callbackThrows)
  }

  /** The submit button's text for the form's loading flag and the category being edited, if any. */
  function ButtonLabel(loading: bool, category: Option<CategoriesSlice.Category>): (text: string)
    ensures text == FormCore.SavingLabel <==> loading
    ensures text == FormCore.UpdateLabel <==> !loading && category.Some?
    ensures text == FormCore.CreateLabel <==> !loading && category.None?
  {
    FormCore.ButtonLabel(loading, category.Some?)
  }
}
