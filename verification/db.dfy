/** The records of internal/db: users, notes, the conversation state kept per
    user, the values the providers return, and the default user record. */
module Db {
  import opened Wrappers

  /** A bot user. `JoinedAt` is a timestamp from the clock and is not modelled. */
  datatype User = User(
    id: int,
    name: string,
    city: string,
    country: string,
    phone: string,
    language: string,
    units: string,
    isActive: bool)

  /** A personal note; `id` is assigned by the store and zero until then. */
  datatype Note = Note(id: int, text: string, owner: int)

  /** The dialogue step a user is in. The source keeps it as a string; the
      empty string of a freshly made state entry is `NoCommand`. */
  datatype Step =
    | NoCommand
    | WaitingForLocation
    | WaitingForCity
    | WaitingForCountry
    | WaitingForUnits
    | WaitingForConfirmation
    | WaitingForNoteAdd
    | WaitingForNoteEditId
    | WaitingForNoteDeleteId
    | WaitingForNoteShareId

  /** One user's dialogue state: the active step and its argument, which the
      bot only ever sets to a message id. */
  datatype StateInfo = StateInfo(command: Step, argument: Option<int>)

  /** The process-wide conversation state store, keyed by user id. */
  type StateMap = map<int, StateInfo>

  /** The state entry made for a user that had none. */
  const EmptyState := StateInfo(NoCommand, None)

  datatype WeatherInfo = WeatherInfo(
    temp: string,
    feelsLike: string,
    weatherDescription: string,
    uvIndex: string,
    wind: string,
    precipitation: string,
    humidity: string,
    pressure: string,
    clouds: string,
    visibility: string,
    city: string,
    country: string,
    units: string)

  datatype Quote = Quote(text: string, author: string, source: string, url: string, language: string)

  datatype LocationInfo = LocationInfo(
    country: string,
    city: string,
    state: string,
    zip: string,
    lat: string,
    lon: string)

  const Metric := "metric"
  const Imperial := "imperial"

  /** The two unit systems a user may prefer. */
  predicate ValidUnits(units: string) {
    units == Metric || units == Imperial
  }

  /** `NewUserObject`: English, metric units and active; every other field
      holds Go's zero value. */
  function NewUserObject(): (u: User)
    ensures u.language == "en"
    ensures u.units == Metric && ValidUnits(u.units)
    ensures u.isActive
    ensures u.id == 0 && u.name == "" && u.city == "" && u.country == "" && u.phone == ""
  {
    User(id := 0, name := "", city := "", country := "", phone := "",
         language := "en", units := Metric, isActive := true)
  }
}
