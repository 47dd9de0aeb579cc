/**
 * The destinations catalogue slice: a page of destinations, the one being
 * viewed, the category list, and the loading/error bookkeeping shared by the
 * destination requests. The category request has only a fulfilment case: its
 * pending and rejected events leave the state as it is.
 */
module Destinations {
  import opened Wrappers
  import opened Types
  import Thunk

  datatype DestinationsState = DestinationsState(
    destinations: seq<Destination>,
    currentDestination: Option<Destination>,
    loading: bool,
    error: Option<string>,
    categories: seq<string>,
    searchQuery: string,
    selectedCategory: Option<string>)

  const InitialState := DestinationsState([], None, false, None, [], "", None)

  datatype DestinationsRequest =
    | FetchDestinations
    | FetchDestination
    | SearchDestinations
    | FetchCategories

  /** The four plain reducers and the lifecycle events of the four requests. */
  datatype DestinationsAction =
    | ClearError
    | SetSearchQuery(query: string)
    | SetSelectedCategory(category: Option<string>)
    | ClearCurrentDestination
    | Pending(request: DestinationsRequest)
    | Rejected(request: DestinationsRequest, message: string)
    | DestinationsFulfilled(page: ApiResponse<seq<Destination>>)
    | DestinationFulfilled(destination: Destination)
    | SearchFulfilled(page: ApiResponse<seq<Destination>>)
    | CategoriesFulfilled(categories: seq<string>)

  /** The state after one action, field by field: which actions write each field, and with what. */
  function Reduce(s: DestinationsState, a: DestinationsAction): (r: DestinationsState)
    ensures r.destinations == match a
      case DestinationsFulfilled(p) => p.data
      case SearchFulfilled(p) => p.data
      case _ => s.destinations
    ensures r.currentDestination == match a
      case DestinationFulfilled(d) => Some(d)
      case ClearCurrentDestination => None
      case _ => s.currentDestination
    ensures r.loading == match a
      case Pending(q) => q != FetchCategories || s.loading
      case Rejected(q, _) => q == FetchCategories && s.loading
      case DestinationsFulfilled(_) => false
      case DestinationFulfilled(_) => false
      case SearchFulfilled(_) => false
      case _ => s.loading
    ensures r.error == match a
      case Pending(q) => if q == FetchCategories then s.error else None
      case Rejected(q, m) => if q == FetchCategories then s.error else Some(m)
      case ClearError => None
      case _ => s.error
    ensures r.categories == if a.CategoriesFulfilled? then a.categories else s.categories
    ensures r.searchQuery == if a.SetSearchQuery? then a.query else s.searchQuery
    ensures r.selectedCategory == if a.SetSelectedCategory? then a.category else s.selectedCategory
    ensures (a.Pending? || a.Rejected?) && a.request == FetchCategories ==> r == s
  {
    match a
    case ClearError => s.(error := None)
    case SetSearchQuery(q) => s.(searchQuery := q)
    case SetSelectedCategory(c) => s.(selectedCategory := c)
    case ClearCurrentDestination => s.(currentDestination := None)
    case Pending(q) => if q == FetchCategories then s else s.(loading := true, error := None)
    case Rejected(q, m) => if q == FetchCategories then s else s.(loading := false, error := Some(m))
    case DestinationsFulfilled(p) => s.(loading := false, destinations := p.data)
    case DestinationFulfilled(d) => s.(loading := false, currentDestination := Some(d))
    case SearchFulfilled(p) => s.(loading := false, destinations := p.data)
    case CategoriesFulfilled(c) => s.(categories := c)
  }

  function Run(s: DestinationsState, actions: seq<DestinationsAction>): DestinationsState
  {
    if actions == [] then s else Reduce(Run(s, actions[..|actions| - 1]), actions[|actions| - 1])
  }

  /** The `data` of the last page fulfilment (fetch or search) among the actions, if any. */
  function LastPage(actions: seq<DestinationsAction>): Option<seq<Destination>>
  {
    if actions == [] then None
    else
      match actions[|actions| - 1]
      case DestinationsFulfilled(p) => Some(p.data)
      case SearchFulfilled(p) => Some(p.data)
      case _ => LastPage(actions[..|actions| - 1])
  }

  /** Last settled wins: `destinations` is replaced wholesale by the last page applied. */
  lemma {:induction false} LastSettledPageWins(s: DestinationsState, actions: seq<DestinationsAction>)
    ensures Run(s, actions).destinations == match LastPage(actions) case None => s.destinations case Some(d) => d
  {
    if actions != [] {
      LastSettledPageWins(s, actions[..|actions| - 1]);
    }
  }

  /** Requests of the category list never touch the destination bookkeeping, whatever their outcome. */
  lemma {:induction false} CategoryEventsKeepBookkeeping(s: DestinationsState, actions: seq<DestinationsAction>)
    requires forall i :: 0 <= i < |actions| ==>
      actions[i].CategoriesFulfilled? || ((actions[i].Pending? || actions[i].Rejected?) && actions[i].request == FetchCategories)
    ensures Run(s, actions) == s.(categories := Run(s, actions).categories)
  {
    if actions != [] {
      CategoryEventsKeepBookkeeping(s, actions[..|actions| - 1]);
    }
  }

  /** The page a destinations request resolves to, or the single destination. */
  datatype DestinationsPayload =
    | PagePayload(page: ApiResponse<seq<Destination>>)
    | DestinationPayload(destination: Destination)
    | CategoriesPayload(categories: seq<string>)

  predicate Fits(request: DestinationsRequest, payload: DestinationsPayload)
  {
    match request
    case FetchDestinations => payload.PagePayload?
    case SearchDestinations => payload.PagePayload?
    case FetchDestination => payload.DestinationPayload?
    case FetchCategories => payload.CategoriesPayload?
  }

  /** The settlement a request dispatches: its fulfilment, or a rejection with only the thrown error's message. */
  function Settle(request: DestinationsRequest, response: Result<DestinationsPayload, Thunk.ThrownError>): (a: DestinationsAction)
    requires response.Success? ==> Fits(request, response.value)
    ensures a.Rejected? <==> response.Failure?
    ensures a.Rejected? ==> a.request == request && a.message == response.error.message
    ensures response.Success? && request != FetchDestination && request != FetchCategories ==>
      (a.DestinationsFulfilled? || a.SearchFulfilled?) && a.page == response.value.page
  {
    match Thunk.RejectWithMessage(response)
    case Rejected(m) => Rejected(request, m)
    case Fulfilled(p) =>
      match request
      case FetchDestinations => DestinationsFulfilled(p.page)
      case SearchDestinations => SearchFulfilled(p.page)
      case FetchDestination => DestinationFulfilled(p.destination)
      case FetchCategories => CategoriesFulfilled(p.categories)
  }

  /** The destinations slice's state, updated in place by its reducers. */
  class DestinationsSlice {
    var destinations: seq<Destination>
    var currentDestination: Option<Destination>
    var loading: bool
    var error: Option<string>
    var categories: seq<string>
    var searchQuery: string
    var selectedCategory: Option<string>

    function State(): DestinationsState
      reads this
    {
      DestinationsState(destinations, currentDestination, loading, error, categories, searchQuery, selectedCategory)
    }

    constructor ()
      ensures destinations == [] && currentDestination == None && !loading && error == None
      ensures categories == [] && searchQuery == "" && selectedCategory == None
      ensures State() == InitialState
    {
      destinations, currentDestination, loading, error := [], None, false, None;
      categories, searchQuery, selectedCategory := [], "", None;
    }

    /** Applies one reducer or lifecycle case; the category request's pending and rejected events have none. */
    method Dispatch(a: DestinationsAction)
      modifies this
      ensures State() == Reduce(old(State()), a)
    {
      match a
      case ClearError =>
        error := None;
      case SetSearchQuery(q) =>
        searchQuery := q;
      case SetSelectedCategory(c) =>
        selectedCategory := c;
      case ClearCurrentDestination =>
        currentDestination := None;
      case Pending(q) =>
        if q != FetchCategories {
          loading := true;
          error := None;
        }
      case Rejected(q, m) =>
        if q != FetchCategories {
          loading := false;
          error := Some(m);
        }
      case DestinationsFulfilled(p) =>
        loading := false;
        destinations := p.data;
      case DestinationFulfilled(d) =>
        loading := false;
        currentDestination := Some(d);
      case SearchFulfilled(p) =>
        loading := false;
        destinations := p.data;
      case CategoriesFulfilled(c) =>
        categories := c;
    }
  }
}
