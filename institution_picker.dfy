/**
 * The institution search screen's view model
 * (features/institutionpicker/InstitutionPickerViewModel.kt): the held
 * `InstitutionPickerState` and the single pending search that every new
 * query replaces. The 300 ms debounce is the pending search itself;
 * its completion, and the initial payload's, are separate events whose
 * outcome is given.
 */
module InstitutionPicker {
  import opened Wrappers

  /** Mavericks' `Async`: `execute` sets `Loading` when it starts and `Success` or `Fail` when it ends. */
  datatype Async<+T> = Uninitialized | Loading | Success(value: T) | Fail(error: string)

  datatype Institution = Institution(id: string, name: string)
  datatype InstitutionResponse = InstitutionResponse(data: seq<Institution>)
  datatype Payload = Payload(featuredInstitutions: InstitutionResponse, allowManualEntry: bool)

  datatype InstitutionPickerState = InstitutionPickerState(
    query: string,
    searchMode: bool,
    allowManualEntry: bool,
    payload: Async<Payload>,
    searchInstitutions: Async<InstitutionResponse>)

  /** A search started for `query` and not finished yet. */
  datatype SearchJob = SearchJob(query: string)

  datatype Destination = PartnerAuth | ManualEntry

  /** `InstitutionPickerState()`: the defaults of its constructor. */
  function DefaultState(): (s: InstitutionPickerState)
    ensures s.query == "" && !s.searchMode && !s.allowManualEntry
    ensures s.payload == Uninitialized && s.searchInstitutions == Uninitialized
  {
    InstitutionPickerState("", false, false, Uninitialized, Uninitialized)
  }

  /** `runCatching { manifest.allowManualEntry }.getOrElse { false }`; `None` is a read that threw. */
  function PayloadAllowManualEntry(read: Option<bool>): (allow: bool)
    ensures allow <==> read == Some(true)
  {
    read.GetOr(false)
  }

  /** The initial payload: the manifest, then the featured institutions; either failing fails it. */
  function PayloadOutcome(manifest: Outcome<Option<bool>>, featured: Outcome<InstitutionResponse>): (a: Async<Payload>)
    ensures a.Success? <==> manifest.Ok? && featured.Ok?
    ensures a.Success? ==> a.value == Payload(featured.value, PayloadAllowManualEntry(manifest.value))
    ensures manifest.Err? ==> a == Fail(manifest.error)
    ensures manifest.Ok? && featured.Err? ==> a == Fail(featured.error)
  {
    match manifest
    case Err(e) => Fail(e)
    case Ok(allow) =>
      match featured
      case Err(e) => Fail(e)
      case Ok(response) => Success(Payload(response, PayloadAllowManualEntry(allow)))
  }

  /** The state after `onQueryChanged(q)` has started its search. */
  function WithQuery(s: InstitutionPickerState, q: string): (r: InstitutionPickerState)
    ensures r.query == q && r.searchInstitutions == Loading
    ensures r.(query := s.query, searchInstitutions := s.searchInstitutions) == s
  {
    s.(query := q, searchInstitutions := Loading)
  }

  /** `clearSearch`. */
  function Cleared(s: InstitutionPickerState): (r: InstitutionPickerState)
    ensures r.query == "" && !r.searchMode && r.searchInstitutions == Success(InstitutionResponse([]))
    ensures r.payload == s.payload && r.allowManualEntry == s.allowManualEntry
  {
    s.(query := "", searchInstitutions := Success(InstitutionResponse([])), searchMode := false)
  }

  /** `onSearchFocused`. */
  function Focused(s: InstitutionPickerState): (r: InstitutionPickerState)
    ensures r.searchMode && r.(searchMode := s.searchMode) == s
  {
    s.(searchMode := true)
  }

  /** The search's own reducer, `copy(searchInstitutions = it)`, with the value it ended with. */
  function SearchCompleted(s: InstitutionPickerState, outcome: Outcome<InstitutionResponse>): (r: InstitutionPickerState)
    ensures r.(searchInstitutions := s.searchInstitutions) == s
    ensures r.searchInstitutions == if outcome.Ok? then Success(outcome.value) else Fail(outcome.error)
  {
    s.(searchInstitutions := if outcome.Ok? then Success(outcome.value) else Fail(outcome.error))
  }

  /** Clearing twice is clearing once. */
  lemma ClearedIdempotent(s: InstitutionPickerState)
    ensures Cleared(Cleared(s)) == Cleared(s)
  {
  }

  /** Clearing does not cancel the search, so its completion lands on the cleared state. */
  lemma CompletionAfterClearOverwrites(s: InstitutionPickerState, q: string, response: InstitutionResponse)
    ensures SearchCompleted(Cleared(WithQuery(s, q)), Ok(response)).searchInstitutions == Success(response)
    ensures SearchCompleted(Cleared(WithQuery(s, q)), Ok(response)).query == ""
  {
  }

  class InstitutionPickerViewModel {
    var state: InstitutionPickerState
    /** `private var searchJob: Job?`. */
    var searchJob: Option<SearchJob>
    /** Whether the payload fetch started in `init` is still running. */
    var payloadPending: bool
    /** The last query given to `onQueryChanged`. */
    ghost var lastQuery: Option<string>
    /** The local manifest's `activeInstitution`. */
    var activeInstitution: Option<Institution>
    /** Calls to `navigationManager.navigate`, in order. */
    var navigation: seq<Destination>

    /** At most one search is pending, and it is for the latest query. */
    ghost predicate Valid()
      reads this
    {
      searchJob.Some? ==> lastQuery == Some(searchJob.value.query)
    }

    /** The constructor with `init`: the payload fetch starts, so `payload` is `Loading`. */
    constructor (initialState: InstitutionPickerState)
      ensures Valid()
      ensures state == initialState.(payload := Loading) && payloadPending
      ensures searchJob == None && lastQuery == None && activeInstitution == None && navigation == []
    {
      state := initialState.(payload := Loading);
      payloadPending := true;
      searchJob := None;
      lastQuery := None;
      activeInstitution := None;
      navigation := [];
    }

    /** The end of the payload fetch. */
    method OnPayloadLoaded(manifest: Outcome<Option<bool>>, featured: Outcome<InstitutionResponse>)
      requires Valid() && payloadPending
      modifies this`state, this`payloadPending
      ensures Valid() && !payloadPending
      ensures state == old(state).(payload := PayloadOutcome(manifest, featured))
    {
      state := state.(payload := PayloadOutcome(manifest, featured));
      payloadPending := false;
    }

    /** `onQueryChanged`: set the query, cancel any pending search and start one for `q`. */
    method OnQueryChanged(q: string)
      requires Valid()
      modifies this`state, this`searchJob, this`lastQuery
      ensures Valid()
      ensures state == WithQuery(old(state), q)
      ensures searchJob == Some(SearchJob(q)) && lastQuery == Some(q)
    {
      state := state.(query := q);
      searchJob := None;  // searchJob?.cancel()
      searchJob := Some(SearchJob(q));
      lastQuery := Some(q);
      state := state.(searchInstitutions := Loading);
    }

    /** The end of the pending search, after its debounce, with the outcome of `searchInstitutions`. */
    method OnSearchCompleted(outcome: Outcome<InstitutionResponse>)
      requires Valid() && searchJob.Some?
      modifies this`state, this`searchJob
      ensures Valid() && searchJob == None
      ensures state == SearchCompleted(old(state), outcome)
    {
      state := SearchCompleted(state, outcome);
      searchJob := None;
    }

    /** `clearSearch`: the pending search is left running. */
    method ClearSearch()
      requires Valid()
      modifies this`state
      ensures Valid() && state == Cleared(old(state))
    {
      state := state.(query := "", searchInstitutions := Success(InstitutionResponse([])), searchMode := false);
    }

    /** `onCancelSearchClick`: exactly `clearSearch`. */
    method OnCancelSearchClick()
      requires Valid()
      modifies this`state
      ensures Valid() && state == Cleared(old(state))
    {
      ClearSearch();
    }

    /** `onSearchFocused`. */
    method OnSearchFocused()
      requires Valid()
      modifies this`state
      ensures Valid() && state == Focused(old(state))
    {
      state := state.(searchMode := true);
    }

    /** `onInstitutionSelected`: clear the search, then record the institution and go to partner auth. */
    method OnInstitutionSelected(institution: Institution)
      requires Valid()
      modifies this`state, this`activeInstitution, this`navigation
      ensures Valid() && state == Cleared(old(state))
      ensures activeInstitution == Some(institution) && navigation == old(navigation) + [PartnerAuth]
    {
      ClearSearch();
      activeInstitution := Some(institution);
      navigation := navigation + [PartnerAuth];
    }

    /** `onManualEntryClick`. */
    method OnManualEntryClick()
      requires Valid()
      modifies this`navigation
      ensures Valid() && navigation == old(navigation) + [ManualEntry]
    {
      navigation := navigation + [ManualEntry];
    }
  }

  /**
   * A query, then a cancel click, then the end of the search: the search
   * results are those of the abandoned query while the query reads "".
   */
  method CancelDoesNotStopSearch(initialState: InstitutionPickerState, q: string, response: InstitutionResponse)
    returns (after: InstitutionPickerState)
    ensures after.query == "" && !after.searchMode
    ensures after.searchInstitutions == Success(response)
  {
    var vm := new InstitutionPickerViewModel(initialState);
    vm.OnQueryChanged(q);
    vm.OnCancelSearchClick();
    vm.OnSearchCompleted(Ok(response));
    after := vm.state;
  }
}
