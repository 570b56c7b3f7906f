/** What a handler receives and what it does besides replying: the inbound
    update, the answers of the user store and the geocoding provider during
    that update, and the writes it sends to the store. */
module Events {
  import opened Wrappers
  import opened Text
  import opened Db
  import ApiClients

  /** The Telegram user an update comes from. */
  datatype Sender = Sender(id: int, firstName: string, lastName: string, languageCode: string)

  datatype Coordinates = Coordinates(latitude: real, longitude: real)

  /** A chat message: its id, sender, text, and an optional shared location. */
  datatype Message = Message(id: Int64, from: Sender, text: string, location: Option<Coordinates>)

  /** A button press: who pressed, the button's callback data, and the text
      of the message the button was attached to. */
  datatype CallbackQuery = CallbackQuery(from: int, data: string, messageText: string)

  datatype StoreError = StoreUnavailable

  /** The answers the outside world gives during one update: `IsKnownUser`,
      `GetUser` for the sender, the outcome of the one `AddUser` or
      `UpdateUser` call, and the geocoding result. A handler reads only those
      it calls. */
  datatype Env = Env(
    known: bool,
    fetched: Result<User, StoreError>,
    writeOk: bool,
    geocode: Result<LocationInfo, ApiClients.GeoError>)

  /** A write a handler issues to the user store (whether or not it succeeds). */
  datatype StoreWrite = AddUser(user: User) | UpdateUser(user: User) | AddNote(note: Note)

  /** The conversation state after an update and the store writes it issued. */
  datatype Outcome = Outcome(states: StateMap, writes: seq<StoreWrite>)

  /** `after` differs from `before` at most in the entry of `uid`. */
  predicate OnlyTouches(before: StateMap, after: StateMap, uid: int) {
    before - {uid} == after - {uid}
  }

  /** Every user record written to the store prefers one of the two unit systems. */
  predicate WritesValidUnits(writes: seq<StoreWrite>) {
    forall i :: 0 <= i < |writes| ==> !writes[i].AddNote? ==> ValidUnits(writes[i].user.units)
  }

  /** The store holds valid records: a record it returns has valid units. */
  predicate FetchedValid(env: Env) {
    env.fetched.Success? ==> ValidUnits(env.fetched.value.units)
  }
}
