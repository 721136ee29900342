/**
 * The state of the `ExerciseSearch` component: its three state fields and
 * the handlers that change them. The debounce timer is replaced by the
 * caller invoking `Settle` once the query has settled; the network request
 * is replaced by the `Response` it produced.
 */
module ExerciseSearch {
  import opened Text
  import opened Suggestions

  /** What the lookup request produced once awaited. */
  datatype Response =
    /** `fetch` rejected, the status was not ok, or the body was not JSON */
    | Failed
    /** the body parsed to a JSON value that is not an array */
    | NotArray
    | Array(data: seq<Candidate>)

  class SearchBox {
    var exercises: seq<Exercise>
    var loading: bool
    var showDropdown: bool

    /** At most eight suggestions are held, each with a non-empty name. */
    ghost predicate Valid()
      reads this
    {
      |exercises| <= MaxSuggestions && forall k :: 0 <= k < |exercises| ==> Named(exercises[k])
    }

    /** The suggestion list is drawn (line 111). */
    predicate DropdownDrawn()
      reads this
    {
      showDropdown && |exercises| > 0 && !loading
    }

    /** The initial `useState` values. */
    constructor ()
      ensures Valid()
      ensures exercises == [] && !loading && !showDropdown
    {
      exercises := [];
      loading := false;
      showDropdown := false;
    }

    /**
     * `searchExercises` up to its first `await` (lines 41-48): a short
     * query clears the list and hides the dropdown without fetching;
     * otherwise the search starts loading.
     */
    method Settle(query: string) returns (fetching: bool)
      requires Valid()
      modifies this
      ensures Valid()
      ensures fetching <==> !IsShortQuery(query)
      ensures !fetching ==> exercises == [] && !showDropdown && loading == old(loading)
      ensures fetching ==> loading && exercises == old(exercises) && showDropdown == old(showDropdown)
    {
      if IsShortQuery(query) {
        exercises := [];
        showDropdown := false;
        return false;
      }
      loading := true;
      return true;
    }

    /**
     * `searchExercises` after the response arrived (lines 54-89). Whatever
     * happens, `finally` clears `loading`.
     */
    method Resolve(query: string, response: Response)
      requires Valid() && !IsShortQuery(query)
      modifies this
      ensures Valid() && !loading
      ensures response.Failed? ==> exercises == [] && showDropdown == old(showDropdown)
      ensures response.NotArray? ==> exercises == [] && !showDropdown
      ensures response.Array? ==>
        match FilterSuggestions(query, response.data)
        case TypeError => exercises == [] && showDropdown == old(showDropdown)
        case Kept(list) => exercises == list && showDropdown
    {
      match response {
        case Failed =>
          exercises := [];
        case NotArray =>
          exercises := [];
          showDropdown := false;
        case Array(data) =>
          match FilterSuggestions(query, data) {
            case TypeError =>
              exercises := [];
            case Kept(list) =>
              exercises := list;
              showDropdown := true;
          }
      }
      loading := false;
    }

    /**
     * One whole run of `searchExercises` for a settled query whose request,
     * if one is made, produces `response`.
     */
    method Search(query: string, response: Response) returns (fetched: bool)
      requires Valid()
      modifies this
      ensures Valid()
      ensures fetched <==> !IsShortQuery(query)
      ensures !fetched ==> exercises == [] && !showDropdown && loading == old(loading)
      ensures fetched ==> !loading
      ensures fetched && response.Failed? ==> exercises == [] && showDropdown == old(showDropdown)
      ensures fetched && response.NotArray? ==> exercises == [] && !showDropdown
      ensures fetched && response.Array? ==>
        match FilterSuggestions(query, response.data)
        case TypeError => exercises == [] && showDropdown == old(showDropdown)
        case Kept(list) => exercises == list && showDropdown
    {
      fetched := Settle(query);
      if fetched {
        Resolve(query, response);
      }
    }

    /** The input's `onFocus` handler (line 100): it reopens the dropdown. */
    method Focus()
      requires Valid()
      modifies this
      ensures Valid() && showDropdown
      ensures exercises == old(exercises) && loading == old(loading)
    {
      showDropdown := true;
    }

    /**
     * Clicking the `i`-th drawn option (lines 117-121): its name goes to
     * `onChange`, the whole exercise to `onSelect`, and the dropdown closes.
     */
    method Choose(i: nat) returns (changedTo: string, selected: Exercise)
      requires Valid() && DropdownDrawn() && i < |exercises|
      modifies this
      ensures Valid() && !showDropdown && !DropdownDrawn()
      ensures exercises == old(exercises) && loading == old(loading)
      ensures selected == old(exercises)[i] && selected.name == Str(changedTo) && changedTo != []
    {
      selected := exercises[i];
      changedTo := selected.name.text;
      showDropdown := false;
    }
  }
}
