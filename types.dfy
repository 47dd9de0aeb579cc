/**
 * The records the slices store. Their shapes follow the app's type
 * declarations; the model never looks inside them except for a bus stop's
 * `atcocode`, the key of the favourites list, and a user's `token`.
 */
module Types {
  import opened Wrappers

  /** A bus stop, identified by its ATCO code. */
  datatype BusStop = BusStop(
    atcocode: string,
    name: string,
    locality: string,
    timingPoint: bool,
    time: Option<string>,
    latitude: Option<real>,
    longitude: Option<real>)

  datatype Operator = Operator(code: string, name: string)

  datatype DirectionName = Inbound | Outbound

  datatype JourneyPattern = JourneyPattern(stops: seq<string>, count: int)

  datatype Direction = Direction(
    name: DirectionName,
    destination: string,
    journeyPatterns: Option<seq<JourneyPattern>>)

  datatype BusService = BusService(
    id: string,
    operator: Operator,
    line: string,
    lineName: string,
    directions: seq<Direction>)

  datatype Departure = Departure(
    line: string,
    direction: string,
    operator: string,
    aimedDepartureTime: string,
    expectedDepartureTime: Option<string>,
    bestDepartureEstimate: Option<string>,
    source: string,
    mode: string,
    operatorName: string,
    serviceTimetable: Option<string>)

  datatype StopTimetable = StopTimetable(
    atcocode: string,
    name: string,
    locality: string,
    departures: seq<Departure>)

  datatype JourneyTimetable = JourneyTimetable(
    operator: string,
    line: string,
    direction: string,
    stops: seq<BusStop>)

  /**
   * A signed-in user as the login endpoint returns it. The response body is
   * not checked, so its `token` may be missing (`undefined`).
   */
  datatype User = User(
    id: int,
    username: string,
    email: string,
    firstName: string,
    lastName: string,
    token: Option<string>)

  /** A destination's rating is a number, or a formatted string when made up. */
  datatype Rating = NumericRating(score: real) | TextRating(text: string)

  datatype Destination = Destination(
    id: int,
    title: string,
    description: string,
    image: string,
    price: real,
    category: string,
    tags: seq<string>,
    rating: Rating,
    thumbnail: string,
    location: Option<string>,
    duration: Option<string>)

  /** A page of results with the paging fields the endpoint may add. */
  datatype ApiResponse<T> = ApiResponse(
    data: T,
    total: Option<int>,
    skip: Option<int>,
    limit: Option<int>)
}
