/**
 * The bus catalogue slice: stops, services and timetables fetched from the
 * transit API, with one `loading` flag and one `error` message shared by all
 * six requests. Requests are not tagged, so the state reflects whichever
 * settlement was applied last, and any settlement clears `loading` even
 * while another request is still outstanding.
 */
module Bus {
  import opened Wrappers
  import opened Types
  import Thunk

  datatype BusState = BusState(
    stops: seq<BusStop>,
    currentStop: Option<BusStop>,
    services: seq<BusService>,
    currentService: Option<BusService>,
    timetable: Option<StopTimetable>,
    journeyTimetable: Option<JourneyTimetable>,
    loading: bool,
    error: Option<string>,
    searchQuery: string)

  /** The state at app start. */
  const InitialState := BusState([], None, [], None, None, None, false, None, "")

  /** The six requests of the slice. */
  datatype BusRequest =
    | FetchBusStops
    | SearchBusStops
    | FetchStopTimetable
    | SearchBusServices
    | FetchJourneyTimetable
    | FetchJourneyPatterns

  /** The six plain reducers and the eighteen lifecycle cases. */
  datatype BusAction =
    | ClearError
    | SetSearchQuery(query: string)
    | ClearCurrentStop
    | ClearCurrentService
    | ClearTimetable
    | ClearJourneyTimetable
    | Pending(request: BusRequest)
    | Rejected(request: BusRequest, message: string)
    | BusStopsFulfilled(stops: seq<BusStop>)
    | SearchBusStopsFulfilled(stops: seq<BusStop>)
    | StopTimetableFulfilled(timetable: StopTimetable)
    | BusServicesFulfilled(services: seq<BusService>)
    | JourneyTimetableFulfilled(journeyTimetable: JourneyTimetable)
    | JourneyPatternsFulfilled(service: BusService)
  {
    predicate IsFulfilled()
    {
      BusStopsFulfilled? || SearchBusStopsFulfilled? || StopTimetableFulfilled? ||
      BusServicesFulfilled? || JourneyTimetableFulfilled? || JourneyPatternsFulfilled?
    }

    predicate IsSettlement()
    {
      Rejected? || IsFulfilled()
    }
  }

  /** The fields that hold fetched data, as opposed to the bookkeeping fields. */
  predicate SameData(r: BusState, s: BusState)
  {
    r.stops == s.stops && r.currentStop == s.currentStop && r.services == s.services &&
    r.currentService == s.currentService && r.timetable == s.timetable &&
    r.journeyTimetable == s.journeyTimetable
  }

  /** The state after one action, field by field: which actions write each field, and with what. */
  function Reduce(s: BusState, a: BusAction): (r: BusState)
    ensures r.stops == match a
      case BusStopsFulfilled(p) => p
      case SearchBusStopsFulfilled(p) => p
      case _ => s.stops
    ensures r.currentStop == if a.ClearCurrentStop? then None else s.currentStop
    ensures r.services == if a.BusServicesFulfilled? then a.services else s.services
    ensures r.currentService == match a
      case JourneyPatternsFulfilled(p) => Some(p)
      case ClearCurrentService => None
      case _ => s.currentService
    ensures r.timetable == match a
      case StopTimetableFulfilled(p) => Some(p)
      case ClearTimetable => None
      case _ => s.timetable
    ensures r.journeyTimetable == match a
      case JourneyTimetableFulfilled(p) => Some(p)
      case ClearJourneyTimetable => None
      case _ => s.journeyTimetable
    ensures r.loading == if a.Pending? then true else if a.IsSettlement() then false else s.loading
    ensures r.error == match a
      case Pending(_) => None
      case Rejected(_, m) => Some(m)
      case ClearError => None
      case _ => s.error
    ensures r.searchQuery == if a.SetSearchQuery? then a.query else s.searchQuery
    ensures a.Pending? || a.Rejected? ==> SameData(r, s)
  {
    match a
    case ClearError => s.(error := None)
    case SetSearchQuery(q) => s.(searchQuery := q)
    case ClearCurrentStop => s.(currentStop := None)
    case ClearCurrentService => s.(currentService := None)
    case ClearTimetable => s.(timetable := None)
    case ClearJourneyTimetable => s.(journeyTimetable := None)
    case Pending(_) => s.(loading := true, error := None)
    case Rejected(_, m) => s.(loading := false, error := Some(m))
    case BusStopsFulfilled(p) => s.(loading := false, stops := p)
    case SearchBusStopsFulfilled(p) => s.(loading := false, stops := p)
    case StopTimetableFulfilled(p) => s.(loading := false, timetable := Some(p))
    case BusServicesFulfilled(p) => s.(loading := false, services := p)
    case JourneyTimetableFulfilled(p) => s.(loading := false, journeyTimetable := Some(p))
    case JourneyPatternsFulfilled(p) => s.(loading := false, currentService := Some(p))
  }

  /** The state after the actions, applied in the order their requests settle. */
  function Run(s: BusState, actions: seq<BusAction>): BusState
  {
    if actions == [] then s else Reduce(Run(s, actions[..|actions| - 1]), actions[|actions| - 1])
  }

  /** The payload of the last stops fulfilment (fetch or search) among the actions, if any. */
  function LastStopsPayload(actions: seq<BusAction>): Option<seq<BusStop>>
  {
    if actions == [] then None
    else
      match actions[|actions| - 1]
      case BusStopsFulfilled(p) => Some(p)
      case SearchBusStopsFulfilled(p) => Some(p)
      case _ => LastStopsPayload(actions[..|actions| - 1])
  }

  /** Last settled wins: `stops` is the payload of the last stops fulfilment applied, whichever request was issued first. */
  lemma {:induction false} LastSettledStopsWin(s: BusState, actions: seq<BusAction>)
    ensures Run(s, actions).stops == match LastStopsPayload(actions) case None => s.stops case Some(p) => p
  {
    if actions != [] {
      LastSettledStopsWin(s, actions[..|actions| - 1]);
    }
  }

  /** Whether the last lifecycle action among the actions was a pending one (true) or a settlement (false). */
  function LastLifecycle(actions: seq<BusAction>): Option<bool>
  {
    if actions == [] then None
    else
      var a := actions[|actions| - 1];
      if a.Pending? then Some(true)
      else if a.IsSettlement() then Some(false)
      else LastLifecycle(actions[..|actions| - 1])
  }

  /** `loading` is decided by the last lifecycle action alone, not by how many requests are outstanding. */
  lemma {:induction false} LoadingFollowsLastLifecycle(s: BusState, actions: seq<BusAction>)
    ensures Run(s, actions).loading == match LastLifecycle(actions) case None => s.loading case Some(b) => b
  {
    if actions != [] {
      LoadingFollowsLastLifecycle(s, actions[..|actions| - 1]);
    }
  }

  /**
   * Two searches A then B, where B settles first: once B settles `loading`
   * is false although A is outstanding, and when A settles its result
   * replaces B's.
   */
  lemma SettlementOrderRace(s: BusState, resultA: seq<BusStop>, resultB: seq<BusStop>)
    ensures Run(s, [Pending(SearchBusStops), Pending(SearchBusStops), SearchBusStopsFulfilled(resultB)]).loading == false
    ensures Run(s, [Pending(SearchBusStops), Pending(SearchBusStops), SearchBusStopsFulfilled(resultB),
                    SearchBusStopsFulfilled(resultA)]).stops == resultA
  {
    var run := [Pending(SearchBusStops), Pending(SearchBusStops), SearchBusStopsFulfilled(resultB),
                SearchBusStopsFulfilled(resultA)];
    assert run[..3] == [Pending(SearchBusStops), Pending(SearchBusStops), SearchBusStopsFulfilled(resultB)];
    LoadingFollowsLastLifecycle(s, run[..3]);
    LastSettledStopsWin(s, run);
  }

  /** What a request resolves to, per request. */
  datatype BusPayload =
    | StopsPayload(stops: seq<BusStop>)
    | TimetablePayload(timetable: StopTimetable)
    | ServicesPayload(services: seq<BusService>)
    | JourneyPayload(journeyTimetable: JourneyTimetable)
    | ServicePayload(service: BusService)

  /** The payload kind each request's API call returns. */
  predicate Fits(request: BusRequest, payload: BusPayload)
  {
    match request
    case FetchBusStops => payload.StopsPayload?
    case SearchBusStops => payload.StopsPayload?
    case FetchStopTimetable => payload.TimetablePayload?
    case SearchBusServices => payload.ServicesPayload?
    case FetchJourneyTimetable => payload.JourneyPayload?
    case FetchJourneyPatterns => payload.ServicePayload?
  }

  /**
   * The settlement a request dispatches once its API call returns or
   * throws: the matching fulfilment, or a rejection carrying only the
   * thrown error's message.
   */
  function Settle(request: BusRequest, response: Result<BusPayload, Thunk.ThrownError>): (a: BusAction)
    requires response.Success? ==> Fits(request, response.value)
    ensures a.IsSettlement()
    ensures a.Rejected? <==> response.Failure?
    ensures a.Rejected? ==> a.request == request && a.message == response.error.message
    ensures response.Success? && request == SearchBusStops ==> a == SearchBusStopsFulfilled(response.value.stops)
    ensures response.Success? && request == FetchBusStops ==> a == BusStopsFulfilled(response.value.stops)
  {
    match Thunk.RejectWithMessage(response)
    case Rejected(m) => Rejected(request, m)
    case Fulfilled(p) =>
      match request
      case FetchBusStops => BusStopsFulfilled(p.stops)
      case SearchBusStops => SearchBusStopsFulfilled(p.stops)
      case FetchStopTimetable => StopTimetableFulfilled(p.timetable)
      case SearchBusServices => BusServicesFulfilled(p.services)
      case FetchJourneyTimetable => JourneyTimetableFulfilled(p.journeyTimetable)
      case FetchJourneyPatterns => JourneyPatternsFulfilled(p.service)
  }

  /** The bus slice's state, updated in place by its reducers. */
  class BusSlice {
    var stops: seq<BusStop>
    var currentStop: Option<BusStop>
    var services: seq<BusService>
    var currentService: Option<BusService>
    var timetable: Option<StopTimetable>
    var journeyTimetable: Option<JourneyTimetable>
    var loading: bool
    var error: Option<string>
    var searchQuery: string

    function State(): BusState
      reads this
    {
      BusState(stops, currentStop, services, currentService, timetable, journeyTimetable,
               loading, error, searchQuery)
    }

    /** Empty lists, no current items, not loading, no error, empty query. */
    constructor ()
      ensures stops == [] && services == []
      ensures currentStop == None && currentService == None && timetable == None && journeyTimetable == None
      ensures !loading && error == None && searchQuery == ""
      ensures State() == InitialState
    {
      stops, currentStop, services, currentService := [], None, [], None;
      timetable, journeyTimetable := None, None;
      loading, error, searchQuery := false, None, "";
    }

    /** Applies one reducer or lifecycle case. */
    method Dispatch(a: BusAction)
      modifies this
      ensures State() == Reduce(old(State()), a)
    {
      match a
      case ClearError =>
        error := None;
      case SetSearchQuery(q) =>
        searchQuery := q;
      case ClearCurrentStop =>
        currentStop := None;
      case ClearCurrentService =>
        currentService := None;
      case ClearTimetable =>
        timetable := None;
      case ClearJourneyTimetable =>
        journeyTimetable := None;
      case Pending(_) =>
        loading := true;
        error := None;
      case Rejected(_, m) =>
        loading := false;
        error := Some(m);
      case BusStopsFulfilled(p) =>
        loading := false;
        stops := p;
      case SearchBusStopsFulfilled(p) =>
        loading := false;
        stops := p;
      case StopTimetableFulfilled(p) =>
        loading := false;
        timetable := Some(p);
      case BusServicesFulfilled(p) =>
        loading := false;
        services := p;
      case JourneyTimetableFulfilled(p) =>
        loading := false;
        journeyTimetable := Some(p);
      case JourneyPatternsFulfilled(p) =>
        loading := false;
        currentService := Some(p);
    }
  }
}
