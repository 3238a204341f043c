# Movies and categories admin front end — a Dafny model of its state logic

The application is a single-page administration interface for movies and categories kept
by a REST backend. Its logic lives in two Redux slices and two forms:

- the **movies slice** and the **categories slice** hold the current page of entities, a
  loading flag, an error message, the page's pagination metadata and a search term, and
  react to their two plain reducers (`setSearchTerm`, `clearError`), to the `pending`,
  `fulfilled` and `rejected` actions of the list fetch, and to the `fulfilled` actions of
  create, update and delete (create and update change nothing); the categories slice also
  keeps `allCategories`, the full unpaginated list, set by `fetchAllCategories.fulfilled`;
- the **movie form** and the **category form** stage a draft of the entity and a list of
  related ids chosen with checkboxes, pre-fill it from the entity being edited, and on
  submit dispatch update or create, then call the parent's `onSuccess`.

The model is functional. Each slice is a pure reducer `Step(state, action)` over immutable
records, with `Run` folding it over any sequence of actions. A thunk call is its pending
action followed by the settling action its body produces from the backend's reply (a reply
is an input: `Reply(ok, body)` or a transport failure). That sequence can be put in any
order, so the out-of-order arrival of replies can be stated without modelling concurrency.
The two slices' reducers are the same code apart from names, so the model has one generic
list reducer (`ListSlice`) with the entity's id function as a parameter. The movies slice
uses it as is. The categories slice pairs it with `allCategories`. The forms share the
checkbox and submit logic in `FormCore`.

Modules and files:

| file | module | models |
|---|---|---|
| options.dfy | Options | optional values and destructuring defaults |
| seqs.dfy | Seqs | `Array.prototype.filter` and `map` |
| query.dfy | Query | the list query pairs and the decimal page number |
| thunks.dfy | Thunks | thunk lifecycle actions and how a thunk body settles |
| list_slice.dfy | ListSlice | the reducer both slices share |
| movies_slice.dfy | MoviesSlice | store/slices/moviesSlice.ts |
| categories_slice.dfy | CategoriesSlice | store/slices/categoriesSlice.ts |
| form_core.dfy | FormCore | checkbox selection, submit trace, button label |
| movie_form.dfy | MovieForm | components/movie-form.tsx |
| category_form.dfy | CategoryForm | components/category-form.tsx |

## Model

| member | source | states |
|---|---|---|
| Seqs.Filter | store/slices/moviesSlice.ts:134 | the result holds exactly the input's elements that pass the predicate and is no longer than the input |
| Seqs.FilterConcat | store/slices/moviesSlice.ts:134 | filtering distributes over concatenation, so the kept elements stay in their original relative order |
| Seqs.FilterIdempotent | store/slices/moviesSlice.ts:134 | filtering twice by the same predicate equals filtering once |
| Seqs.FilterFilter | store/slices/moviesSlice.ts:134 | two successive filters are one filter by the conjunction of the predicates |
| Seqs.FilterKeepsAll | store/slices/moviesSlice.ts:134 | a filter every element passes returns its input unchanged |
| Seqs.FilterSplice | store/slices/moviesSlice.ts:134 | removing one failing element between passing ones joins its neighbours |
| Seqs.FilterMultiset | components/movie-form.tsx:64 | every occurrence of a passing element is kept and none of a failing one |
| Seqs.Map | components/movie-form.tsx:38 | the result has the input's length and holds the function's value at each position |
| Query.Decimal | store/slices/moviesSlice.ts:56 | the page number is rendered as at least one decimal digit with no leading zero |
| Query.DecimalRoundTrip | store/slices/moviesSlice.ts:56 | reading back a rendered page number yields the number |
| Query.ListQuery | store/slices/moviesSlice.ts:54-56 | the filter key is present iff the filter is non-empty, `page` is present iff the page is above 1 and carries its decimal form, each at most once (the query has exactly that many pairs), no other key occurs, and the filter precedes `page` |
| Query.ListQueryRoundTrip | store/slices/moviesSlice.ts:53-56 | the model's reference decoding of the pairs (first value per key, a missing page read as 1) gives back the filter, and the page when it is above 1; pages 1 and below are sent as no page and decode as 1 |
| Thunks.Settle | store/slices/moviesSlice.ts:93-99 | a thunk settles fulfilled with its value iff the reply is ok; a reply that is not ok rejects with the thunk's own message, a transport failure with the failure's message |
| Thunks.SettleBody | store/slices/moviesSlice.ts:58-60 | a thunk returning the reply body is fulfilled with that body iff the reply is ok, rejects with its own message on a reply that is not ok, and with the failure's message on a transport failure |
| ListSlice.Initial | store/slices/moviesSlice.ts:37-47 | the initial state (no entities, loading off, no error, metadata total 0, page 1, last page 1, empty search term) satisfies the invariant that a stored error is never empty |
| ListSlice.ErrorMessage | store/slices/moviesSlice.ts:125 | the stored message is never empty: the error's message when it is present and non-empty, otherwise "Error desconocido" |
| ListSlice.Step | store/slices/moviesSlice.ts:104-136 | each action assigns only its own fields (`setSearchTerm` the term, `clearError` the error, pending loading and error, fulfilled loading, list and metadata, rejected loading and error, successful delete the list, create, update and the other delete actions nothing); pending sets loading and clears the error; fulfilled ends loading and takes list and metadata from the payload; rejected ends loading and stores the message; a successful delete keeps exactly the held entities with another id; no action stores an empty error message |
| ListSlice.RunValid | store/slices/moviesSlice.ts:123-126 | no sequence of actions ever stores an empty error message |
| ListSlice.MutationKeepsState | store/slices/moviesSlice.ts:127-132 | create and update actions, and delete actions other than a success, leave the state unchanged |
| ListSlice.DeleteIdempotent | store/slices/moviesSlice.ts:133-135 | applying a successful delete of an id twice equals applying it once |
| ListSlice.DeleteSplices | store/slices/moviesSlice.ts:133-135 | deleting the only entity with an id removes exactly it, keeps the entities before and after it in order, and leaves the metadata as it was |
| ListSlice.WithoutFetch | store/slices/moviesSlice.ts:112-136 | with no page fetched in between, the list only loses the entities deleted meanwhile and the metadata stays |
| ListSlice.LastFetchWins | store/slices/moviesSlice.ts:118-122 | after any actions, the list is the last fetched page's data minus the entities deleted after it arrived, and the metadata is that page's, whatever order the requests were sent in |
| ListSlice.OutOfOrderReplies | store/slices/moviesSlice.ts:118-122 | two fetches whose replies arrive in reverse order leave the page of the request sent first |
| ListSlice.NothingBeforeFirstFetch | store/slices/moviesSlice.ts:37-47 | from the initial state and until a page is fetched, the list is empty and the metadata is total 0, page 1, last page 1 |
| ListSlice.SearchTermIsLatest | store/slices/moviesSlice.ts:105-107 | the search term is the one most recently set, or the starting one if none was set |
| ListSlice.FetchSucceeds | store/slices/moviesSlice.ts:114-122 | a successful fetch call, from any state, leaves the reply's list and metadata, loading off, no error and the search term untouched |
| ListSlice.FetchFails | store/slices/moviesSlice.ts:114-126 | a failed fetch call keeps the previous list and metadata, ends loading and stores a non-empty error: the thunk's own message when the reply was not ok, and the failure's message or "Error desconocido" on a transport failure |
| MoviesSlice.FetchQuery | store/slices/moviesSlice.ts:53-56 | `title` is sent iff it is non-empty and then carries the title, `page` iff it is above 1 and then carries its decimal text, each at most once, `title` comes before `page`, and a missing page or title counts as 1 or empty |
| MoviesSlice.DeleteSettled | store/slices/moviesSlice.ts:93-99 | the delete thunk is fulfilled with the id it was given iff the reply is ok; a reply that is not ok rejects with "Error al eliminar película"; a transport failure rejects with the failure's own message |
| MoviesSlice.FetchCall | store/slices/moviesSlice.ts:114-126 | a fetch call replaces list and metadata and clears the error on success; on failure it keeps them, a reply that is not ok leaves "Error al cargar películas" and a transport failure its own message or "Error desconocido"; loading ends either way |
| MoviesSlice.DeleteCall | store/slices/moviesSlice.ts:133-135 | a successful delete call leaves no movie with the id, keeps every other movie and does not recompute the metadata; a failed one changes nothing |
| MoviesSlice.SaveCallKeepsState | store/slices/moviesSlice.ts:127-132 | a create or update call leaves the slice unchanged whatever the reply |
| CategoriesSlice.Initial | store/slices/categoriesSlice.ts:38-49 | the initial state is the shared initial list state with an empty `allCategories` |
| CategoriesSlice.Step | store/slices/categoriesSlice.ts:117-144 | list actions run the shared list reducer and never touch `allCategories`; a fetched full list replaces `allCategories` only; pending and rejected full-list actions change nothing |
| CategoriesSlice.RunSeparates | store/slices/categoriesSlice.ts:117-144 | the paginated part after any actions is what the shared reducer makes of the list actions alone |
| CategoriesSlice.AllCategoriesIsLatest | store/slices/categoriesSlice.ts:132-134 | `allCategories` is the data of the most recently fetched full list; deletes and other list actions never change it |
| CategoriesSlice.FetchQuery | store/slices/categoriesSlice.ts:55-58 | `name` is sent iff it is non-empty and then carries the name, `page` iff it is above 1 and then carries its decimal text, each at most once, `name` comes before `page`, and a missing page or name counts as 1 or empty |
| CategoriesSlice.DeleteSettled | store/slices/categoriesSlice.ts:98-104 | the delete thunk is fulfilled with the id it was given iff the reply is ok; a reply that is not ok rejects with "Error al eliminar categoría"; a transport failure rejects with the failure's own message |
| CategoriesSlice.FetchCall | store/slices/categoriesSlice.ts:119-131 | a fetch call replaces list and metadata and clears the error on success; on failure it keeps them, a reply that is not ok leaves "Error al cargar categorías" and a transport failure its own message or "Error desconocido"; `allCategories` is untouched |
| CategoriesSlice.FetchAllCall | store/slices/categoriesSlice.ts:66-70 | a successful full-list fetch replaces `allCategories` without touching list, loading or error; a failed one changes nothing |
| CategoriesSlice.DeleteCall | store/slices/categoriesSlice.ts:141-143 | a successful delete call leaves no category with the id on the page, keeps the others and the metadata, and leaves `allCategories` as it was; a failed one changes nothing |
| CategoriesSlice.SaveCallKeepsState | store/slices/categoriesSlice.ts:135-140 | a create or update call leaves the slice unchanged whatever the reply |
| FormCore.Toggle | components/movie-form.tsx:61-66 | checking appends the id at the end and keeps everything before it; unchecking keeps exactly the ids different from it |
| FormCore.ToggleShows | components/movie-form.tsx:116 | after a change the clicked box shows the new value and every other box is as before |
| FormCore.CheckThenUncheck | components/movie-form.tsx:61-65 | checking an unchecked box and unchecking it again restores the selection exactly |
| FormCore.UncheckKeepsOrder | components/movie-form.tsx:64 | unchecking acts on each part of the list separately, so the remaining ids keep their order |
| FormCore.ToggleCounts | components/movie-form.tsx:64 | checking adds one copy of the id with no de-duplication, unchecking removes all copies, other ids keep their count |
| FormCore.Submit | components/movie-form.tsx:43-59 | loading is set first, cleared last and not touched in between; the only dispatch is update with the entity's id when one is edited and create otherwise, with the draft; right after it comes one `onSuccess` call if the call succeeded, else the error log; the error is logged iff the call failed or `onSuccess` threw inside the same `try`, in which case it follows the callback; four effects, five when the callback throws |
| FormCore.ButtonLabel | components/movie-form.tsx:139 | the label is "Guardando..." iff loading, "Actualizar" iff idle and editing, "Crear" iff idle and creating |
| FormCore.LoadingHeld | components/movie-form.tsx:45-57 | once loading is switched on it stays on until an effect sets it again |
| FormCore.LabelThroughSubmit | components/movie-form.tsx:139 | the button reads "Guardando..." from the start of a submit until it settles, then "Actualizar" or "Crear" on every path, a throwing `onSuccess` included |
| MovieForm.InitialDraft | components/movie-form.tsx:24-29 | the new draft has empty title and synopsis, the given year, and no category checked |
| MovieForm.CategoryIds | components/movie-form.tsx:38 | the selection of an edited movie is its categories' ids in order, or empty when the movie carries no category list |
| MovieForm.Prefill | components/movie-form.tsx:32-41 | editing a movie copies its title, synopsis, year and category ids into the draft; without a movie the draft is unchanged |
| MovieForm.PrefillChecks | components/movie-form.tsx:32-40 | after the pre-fill a category box is checked iff the movie belongs to that category |
| MovieForm.ToggleCategory | components/movie-form.tsx:61-66 | a category change moves only the selection; title, synopsis and year are unchanged |
| MovieForm.HandleSubmit | components/movie-form.tsx:43-59 | submit dispatches update with the movie's id when a movie is edited and create otherwise, with the draft as body; it is the only dispatch and is followed by one `onSuccess` call if the reply is ok, else by the error log; the error is logged iff the reply is not ok or `onSuccess` throws; loading is on throughout and off at the end |
| MovieForm.ButtonLabel | components/movie-form.tsx:139 | "Guardando..." iff loading, otherwise "Actualizar" when editing a movie and "Crear" when creating |
| CategoryForm.InitialDraft | components/category-form.tsx:24-28 | the new draft has empty name and description and no movie checked |
| CategoryForm.MovieIds | components/category-form.tsx:36 | the selection of an edited category is its movies' ids in order, or empty when it carries no movie list |
| CategoryForm.Prefill | components/category-form.tsx:31-39 | editing a category copies its name, description and movie ids into the draft; without a category the draft is unchanged |
| CategoryForm.PrefillChecks | components/category-form.tsx:101 | after the pre-fill a movie box is checked iff the movie belongs to the edited category |
| CategoryForm.ToggleMovie | components/category-form.tsx:59-64 | a movie change moves only the selection; name and description are unchanged |
| CategoryForm.HandleSubmit | components/category-form.tsx:41-57 | submit dispatches update with the category's id when one is edited and create otherwise, with the draft as body; it is the only dispatch and is followed by one `onSuccess` call if the reply is ok, else by the error log; the error is logged iff the reply is not ok or `onSuccess` throws; loading is on throughout and off at the end |
| CategoryForm.ButtonLabel | components/category-form.tsx:126 | "Guardando..." iff loading, otherwise "Actualizar" when editing a category and "Crear" when creating |

## Left out

- HTTP and JSON: `fetch`, `response.json()`, `API_BASE`, the request URLs and the URL encoding done by `URLSearchParams`. A reply is an input to the model, already decoded; the query is the ordered list of key/value pairs before encoding.
- Redux Toolkit and React machinery: `createSlice` and Immer, `createAsyncThunk` (its lifecycle actions are modelled, its request ids and serialisation are not), `unwrap`, hooks and `useEffect` scheduling. The pre-fill is modelled as the function the effect applies.
- store/store.ts is not part of this model: it only combines the two reducers, and each reducer leaves the other slice's actions alone.
- The pages (app/movies/page.tsx, app/categories/page.tsx, app/page.tsx) and components/navigation.tsx: rendering, dialogs and toasts. A failed delete is reported there by a toast, not in the slice.
- Concurrency: replies that overlap in time are modelled only as orderings of their settling actions.
- MovieForm.InitialDraft: the default year comes from `new Date().getFullYear()`, which reads the clock; it is a parameter here.
- The browser-enforced input rules: `required` fields and the year's `min`/`max` bounds. So a submit with an empty required field is not modelled as blocked.
- The plain field handlers (`setFormData` for title, synopsis, name, description) and `Number.parseInt` on the year input, which can yield `NaN`.
- Query.Decimal: JavaScript writes numbers of 10^21 and more in exponent form, and a fractional page with a fraction. The model's page is an integer written in plain decimal.
- The forms' `any`-typed entity props are given the slices' entity types. The `createdAt`/`updatedAt` timestamps are carried but never used.
- CategoriesSlice.State groups `categories`, `loading`, `error`, `meta` and `searchTerm` into one shared list record next to `allCategories`. The fields and their updates are the source's.
- `deleteMovie`/`deleteCategory` have no `rejected` case (store/slices/moviesSlice.ts:133-135, store/slices/categoriesSlice.ts:141-143), so a failed delete changes nothing in the slice; the page reports it with a toast (app/movies/page.tsx:62-67), which is not modelled.
