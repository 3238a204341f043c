/** What the movie form and the category form share: the checkbox list that selects related
    ids, the submit handler as the trace of effects it performs, and the submit button label. */
module FormCore {
  import opened Options
  import Seqs

  /** The filter an unchecked box applies: keep every id other than `id`. */
  function Other(id: int): int -> bool {
    x => x != id
  }

  /** The selected ids after a checkbox change: a checked box appends its id at the end
      (without looking for an earlier copy), an unchecked box removes every copy of it. */
  function Toggle(ids: seq<int>, id: int, checked: bool): (r: seq<int>)
    ensures checked ==> |r| == |ids| + 1 && r[..|ids|] == ids && r[|ids|] == id
    ensures !checked ==> forall i :: 0 <= i < |r| ==> r[i] != id && r[i] in ids
    ensures !checked ==> forall i :: 0 <= i < |ids| && ids[i] != id ==> ids[i] in r
  {
    if checked then ids + [id] else Seqs.Filter(ids, Other(id))
  }

  /** A box is shown checked when its id is among the selected ids. */
  predicate IsChecked(ids: seq<int>, id: int) {
    id in ids
  }

  /** After a change the box shows what was clicked, and every other box is as before. */
  lemma ToggleShows(ids: seq<int>, id: int, checked: bool, other: int)
    ensures IsChecked(Toggle(ids, id, checked), id) == checked
    ensures other != id ==> IsChecked(Toggle(ids, id, checked), other) == IsChecked(ids, other)
  {
  }

  /** Checking a box that was not checked and unchecking it again restores the selection
      exactly, order included. */
  lemma CheckThenUncheck(ids: seq<int>, id: int)
    requires !IsChecked(ids, id)
    ensures Toggle(Toggle(ids, id, true), id, false) == ids
  {
    assert forall y :: y in ids ==> Other(id)(y);
    Seqs.FilterSplice(ids, id, [], Other(id));
    assert ids + [id] + [] == ids + [id];
    assert ids + [] == ids;
  }

  /** Unchecking keeps the remaining ids in their order: it acts on each part of the list
      separately. */
  lemma UncheckKeepsOrder(before: seq<int>, after: seq<int>, id: int)
    ensures Toggle(before + after, id, false) == Toggle(before, id, false) + Toggle(after, id, false)
  {
    Seqs.FilterConcat(before, after, Other(id));
  }

  /** How many copies of each id a change leaves: checking adds one copy of its id,
      unchecking leaves none of its id; other ids keep their count. */
  lemma ToggleCounts(ids: seq<int>, id: int, checked: bool, x: int)
    ensures multiset(Toggle(ids, id, checked))[x]
            == if x != id then multiset(ids)[x] else if checked then multiset(ids)[x] + 1 else 0
  {
    if !checked {
      Seqs.FilterMultiset(ids, Other(id), x);
    }
  }

  /** Which thunk a submit dispatches. */
  datatype Target = CreateNew | UpdateExisting(id: int)

  /** The observable steps of a submit: setting the form's loading flag, dispatching the
      thunk with the draft, calling the parent's `onSuccess`, logging the error. */
  datatype Effect<+D> = SetLoading(on: bool) | Dispatch(target: Target, data: D) | NotifySuccess | LogError

  /** The submit handler: loading on, dispatch update for an existing entity (by its id) or
      create otherwise, then `onSuccess` if the dispatched call succeeded or the error log if
      it did not, and finally loading off on either path. `onSuccess` runs inside the same
      `try`, so when the parent's callback throws, its exception is logged too. */
  function Submit<D(==)>(existing: Option<int>, draft: D, succeeded: bool, callbackThrows: bool)
    : (effects: seq<Effect<D>>)
    ensures |effects| >= 3
    ensures effects[0] == SetLoading(true)
    ensures effects[|effects| - 1] == SetLoading(false)
    ensures forall i :: 0 < i < |effects| - 1 ==> !effects[i].SetLoading?
    ensures effects[1] == Dispatch(if existing.Some? then UpdateExisting(existing.value) else CreateNew, draft)
    ensures forall i :: 0 <= i < |effects| && effects[i].Dispatch? ==> i == 1
    ensures NotifySuccess in effects <==> succeeded
    ensures LogError in effects <==> !succeeded || callbackThrows
    ensures |effects| == if succeeded && callbackThrows then 5 else 4
    ensures effects[2] == if succeeded then NotifySuccess else LogError
    ensures succeeded && callbackThrows ==> effects[3] == LogError
  {
    var target := if existing.Some? then UpdateExisting(existing.value) else CreateNew;
    var outcome := if !succeeded then [LogError]
                   else if callbackThrows then [NotifySuccess, LogError]
                   else [NotifySuccess];
    [SetLoading(true), Dispatch(target, draft)] + outcome + [SetLoading(false)]
  }

  /** The form's loading flag after `effects`: the value last set, or `initial`. */
  function LoadingAfter<D>(initial: bool, effects: seq<Effect<D>>): bool
    decreases |effects|
  {
    if effects == [] then initial
    else if effects[|effects| - 1].SetLoading? then effects[|effects| - 1].on
    else LoadingAfter(initial, effects[..|effects| - 1])
  }

  const SavingLabel := "Guardando..."
  const UpdateLabel := "Actualizar"
  const CreateLabel := "Crear"

  /** The submit button's text; each of the three texts names exactly one situation. */
  function ButtonLabel(loading: bool, editing: bool): (text: string)
    ensures text == SavingLabel <==> loading
    ensures text == UpdateLabel <==> !loading && editing
    ensures text == CreateLabel <==> !loading && !editing
  {
    if loading then SavingLabel else if editing then UpdateLabel else CreateLabel
  }

  /** Once loading has been switched on, it stays on for as long as nothing sets it again. */
  lemma {:induction false} LoadingHeld<D>(initial: bool, effects: seq<Effect<D>>, k: nat)
    requires 1 <= k <= |effects|
    requires effects[0] == SetLoading(true)
    requires forall i :: 0 < i < k ==> !effects[i].SetLoading?
    ensures LoadingAfter(initial, effects[..k])
    decreases k
  {
    if k > 1 {
      assert effects[..k][k - 1] == effects[k - 1];
      assert effects[..k][..k - 1] == effects[..k - 1];
      LoadingHeld(initial, effects, k - 1);
    }
  }

  /** While the submit is in flight the button reads "Guardando...", and once it has settled,
      successfully or not, the button reads "Actualizar" or "Crear" again. */
  lemma LabelThroughSubmit<D>(existing: Option<int>, draft: D, succeeded: bool, callbackThrows: bool, initial: bool)
    ensures var effects := Submit(existing, draft, succeeded, callbackThrows);
            && (forall k :: 1 <= k < |effects| ==> ButtonLabel(LoadingAfter(initial, effects[..k]), existing.Some?) == SavingLabel)
            && ButtonLabel(LoadingAfter(initial, effects), existing.Some?) == (if existing.Some? then UpdateLabel else CreateLabel)
  {
    var effects := Submit(existing, draft, succeeded, callbackThrows);
    forall k | 1 <= k < |effects|
      ensures LoadingAfter(initial, effects[..k])
    {
      LoadingHeld(initial, effects, k);
    }
  }
}
