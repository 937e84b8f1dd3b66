/**
 * The two tables of the shared schema: `users` and `travel_submissions`.
 * A nullable text column is an `Option<string>`; `None` is SQL/JSON null.
 */
module Schema {
  import opened Wrappers

  /** Primary keys are opaque strings (UUIDs in the running system). */
  type Id = string

  /** A row of `users`. The column `username` is declared unique, but nothing in the in-memory store enforces that. */
  datatype User = User(id: Id, username: string, password: string)

  /** The insert shape of `users`: `username` and `password`, no id. */
  datatype InsertUser = InsertUser(username: string, password: string)

  /** The seven nullable text columns of `travel_submissions`. */
  datatype TravelField =
    | ArrivalDate | ArrivalTime | ArrivalAirlineFlight
    | DepartureDate | DepartureTime | DepartureAirlineFlight
    | Notes

  /** A row of `travel_submissions`: an id, a required name and seven nullable texts. */
  datatype TravelSubmission = TravelSubmission(
    id: Id,
    name: string,
    arrivalDate: Option<string>,
    arrivalTime: Option<string>,
    arrivalAirlineFlight: Option<string>,
    departureDate: Option<string>,
    departureTime: Option<string>,
    departureAirlineFlight: Option<string>,
    notes: Option<string>)
  {
    /** The value of one nullable column. */
    function Field(f: TravelField): Option<string> {
      match f
      case ArrivalDate => arrivalDate
      case ArrivalTime => arrivalTime
      case ArrivalAirlineFlight => arrivalAirlineFlight
      case DepartureDate => departureDate
      case DepartureTime => departureTime
      case DepartureAirlineFlight => departureAirlineFlight
      case Notes => notes
    }
  }

  /**
   * The insert shape of `travel_submissions`: every column but `id`. An
   * optional field that is missing (undefined) or null is `None`; the
   * two are treated alike everywhere they are read.
   */
  datatype InsertTravelSubmission = InsertTravelSubmission(
    name: string,
    arrivalDate: Option<string>,
    arrivalTime: Option<string>,
    arrivalAirlineFlight: Option<string>,
    departureDate: Option<string>,
    departureTime: Option<string>,
    departureAirlineFlight: Option<string>,
    notes: Option<string>)
  {
    function Field(f: TravelField): Option<string> {
      match f
      case ArrivalDate => arrivalDate
      case ArrivalTime => arrivalTime
      case ArrivalAirlineFlight => arrivalAirlineFlight
      case DepartureDate => departureDate
      case DepartureTime => departureTime
      case DepartureAirlineFlight => departureAirlineFlight
      case Notes => notes
    }
  }
}
