/** The message handlers of main.go that read or write the conversation
    state or the user store: the onboarding part of `/start`, the default
    handler that completes a shared location, and the location handler that
    walks the manual city/country/units/confirmation steps. */
module Dialogue {
  import opened Wrappers
  import opened Text
  import opened Db
  import opened Events
  import Utils

  // ---------------------------------------------------------------------
  // /start
  // ---------------------------------------------------------------------

  /** The replies of `/start` that matter to the dialogue. */
  datatype StartReply =
    | Hello(firstName: string)
    | AskLocation(keyboard: Utils.Keyboard)
    | WelcomeBack(name: string)
    | ErrorReply

  datatype StartOutcome = StartOutcome(writes: seq<StoreWrite>, replies: seq<StartReply>)

  /** The name a returning user is greeted with: the text before the first
      space of the stored name. */
  function FirstWord(name: string): (w: string)
    ensures w <= name && ' ' !in w
    ensures |w| < |name| ==> name[|w|] == ' '
  {
    SplitFirstPart(name, ' ');
    Split(name, ' ')[0]
  }

  /** The record `/start` registers for a new sender. */
  function Registration(from: Sender): (u: User)
    ensures u.id == from.id
    ensures u.name == from.firstName + " " + from.lastName
    ensures u.language == from.languageCode
    ensures u.units == NewUserObject().units && u.isActive == NewUserObject().isActive
    ensures u.city == "" && u.country == "" && u.phone == ""
  {
    NewUserObject().(id := from.id, name := from.firstName + " " + from.lastName, language := from.languageCode)
  }

  /** `startHandler`. It never touches the conversation state: the location
      dialogue begins only when the share button it sends is pressed. */
  function StartHandler(msg: Option<Message>, env: Env): (r: StartOutcome)
    ensures msg.None? ==> r == StartOutcome([], [])
    ensures msg.Some? && !env.known ==>
      && r.writes == [AddUser(Registration(msg.value.from))]
      && |r.replies| >= 2
      && r.replies[0] == Hello(msg.value.from.firstName)
      && r.replies[1] == AskLocation(Utils.RequestLocation(msg.value.id))
      && (ErrorReply in r.replies <==> !env.writeOk)
    ensures msg.Some? && env.known ==> r.writes == []
    ensures msg.Some? && env.known && env.fetched.Failure? ==> r.replies == [ErrorReply]
    ensures msg.Some? && env.known && env.fetched.Success? ==>
      r.replies == [WelcomeBack(FirstWord(env.fetched.value.name))]
    ensures WritesValidUnits(r.writes)
  {
    match msg
    case None => StartOutcome([], [])
    case Some(m) =>
      if !env.known then
        var greeting := [Hello(m.from.firstName), AskLocation(Utils.RequestLocation(m.id))];
        StartOutcome([AddUser(Registration(m.from))], if env.writeOk then greeting else greeting + [ErrorReply])
      else
        match env.fetched
        case Failure(_) => StartOutcome([], [ErrorReply])
        case Success(u) => StartOutcome([], [WelcomeBack(FirstWord(u.name))])
  }

  /** A user registered by `/start` is welcomed back by their first name,
      provided it has no space in it. */
  lemma WelcomeBackByFirstName(from: Sender)
    requires ' ' !in from.firstName
    ensures FirstWord(Registration(from).name) == from.firstName
  {
    SplitAtFirst(from.firstName, ' ', from.lastName);
  }

  // ---------------------------------------------------------------------
  // Default handler: a location shared while waiting for one
  // ---------------------------------------------------------------------

  predicate AwaitingLocation(states: StateMap, uid: int) {
    uid in states && states[uid].command == WaitingForLocation
  }

  /** The message is a location shared by a user the bot is waiting on. */
  predicate SharesAwaitedLocation(states: StateMap, msg: Option<Message>) {
    msg.Some? && AwaitingLocation(states, msg.value.from.id) && msg.value.location.Some?
  }

  /** The stored record with the city and country of the geocoding result. */
  function Located(u: User, place: LocationInfo): (v: User)
    ensures v.city == place.city && v.country == place.country
    ensures v.(city := u.city, country := u.country) == u
  {
    u.(city := place.city, country := place.country)
  }

  /** `defaultHandler`. */
  function DefaultHandler(states: StateMap, msg: Option<Message>, env: Env): (r: Outcome)
    ensures !SharesAwaitedLocation(states, msg) ==> r == Outcome(states, [])
    ensures SharesAwaitedLocation(states, msg) && (env.geocode.Failure? || env.fetched.Failure?) ==>
      r == Outcome(states, [])
    ensures SharesAwaitedLocation(states, msg) && env.geocode.Success? && env.fetched.Success? ==>
      && r.writes == [UpdateUser(Located(env.fetched.value, env.geocode.value))]
      && (env.writeOk ==> r.states == states - {env.fetched.value.id})
      && (!env.writeOk ==> r.states == states)
    ensures r.states == states || (env.fetched.Success? && r.states == states - {env.fetched.value.id})
    ensures FetchedValid(env) ==> WritesValidUnits(r.writes)
  {
    if !SharesAwaitedLocation(states, msg) then Outcome(states, [])
    else
      match (env.geocode, env.fetched)
      case (Success(place), Success(user)) =>
        var updated := Located(user, place);
        if env.writeOk then Outcome(states - {user.id}, [UpdateUser(updated)])
        else Outcome(states, [UpdateUser(updated)])
      case _ => Outcome(states, [])
  }

  // ---------------------------------------------------------------------
  // Location handler: the manual steps
  // ---------------------------------------------------------------------

  const ManualEntryChoice := "No, enter manually"
  const MetricChoice := "Metric (Celsius)"
  const ImperialChoice := "Imperial (Fahrenheit)"
  const ConfirmChoice := "Confirm"
  const CancelChoice := "Cancel"

  /** The outcome of the location handler together with the record it
      edited; the edits live only for this one call. */
  datatype LocationOutcome = LocationOutcome(states: StateMap, writes: seq<StoreWrite>, draft: Option<User>)

  /** The branches that assign the step without looking up the entry first. */
  predicate SetsStepBlindly(msg: Message) {
    msg.location.Some? || msg.text == ManualEntryChoice
  }

  /** Change only the step of an existing entry. */
  function WithStep(states: StateMap, uid: int, step: Step): (r: StateMap)
    requires uid in states
    ensures uid in r && r[uid] == StateInfo(step, states[uid].argument)
    ensures OnlyTouches(states, r, uid) && r.Keys == states.Keys
  {
    states[uid := states[uid].(command := step)]
  }

  /** Why a handler stops without returning. */
  datatype Fault = NilMessage

  /** `locationHandler` as it is reached: from a `manual_location` button
      press. A press carries no chat message, so once `GetUser` succeeds the
      handler reads the location of a nil message and panics. Only a
      `GetUser` failure returns, with nothing changed. */
  function LocationHandlerOnPress(states: StateMap, cb: CallbackQuery, env: Env): (r: Result<Outcome, Fault>)
    ensures r.Success? <==> env.fetched.Failure?
    ensures r.Success? ==> r.value == Outcome(states, [])
  {
    match env.fetched
    case Failure(_) => Success(Outcome(states, []))
    case Success(_) => Failure(NilMessage)
  }

  /** `locationHandler` on its own terms, as if it were given a chat message:
      `env.fetched` is the record fetched for the pressing user, and `msg`
      the message payload it reads. The press it is routed from carries no
      message (see `LocationHandlerOnPress`). The two branches that
      assign the step without looking the entry up need an entry to exist. */
  function LocationHandler(states: StateMap, msg: Message, env: Env): (r: LocationOutcome)
    requires env.fetched.Success? && SetsStepBlindly(msg) ==> env.fetched.value.id in states
    ensures env.fetched.Failure? ==> r == LocationOutcome(states, [], None)
    ensures env.fetched.Success? ==>
      var uid := env.fetched.value.id;
      && r.draft.Some? && r.draft.value.id == uid
      && OnlyTouches(states, r.states, uid)
      && r.states.Keys <= states.Keys
      && (msg.location.Some? ==> r.states == WithStep(states, uid, WaitingForUnits) && r.writes == [])
      && (msg.location.None? && msg.text == ManualEntryChoice ==>
            r.states == WithStep(states, uid, WaitingForCity) && r.writes == [])
      && (!SetsStepBlindly(msg) && uid !in states ==> r.states == states && r.writes == [])
    ensures env.fetched.Success? && !SetsStepBlindly(msg) && env.fetched.value.id in states ==>
      var uid := env.fetched.value.id;
      var user := env.fetched.value;
      match states[uid].command
      case WaitingForCity =>
        r.states == WithStep(states, uid, WaitingForCountry) && r.writes == []
        && r.draft == Some(user.(city := msg.text))
      case WaitingForCountry =>
        r.states == WithStep(states, uid, WaitingForUnits) && r.writes == []
        && r.draft == Some(user.(country := msg.text))
      case WaitingForUnits =>
        && r.writes == []
        && (msg.text == MetricChoice ==>
              r.states == WithStep(states, uid, WaitingForConfirmation) && r.draft == Some(user.(units := Metric)))
        && (msg.text == ImperialChoice ==>
              r.states == WithStep(states, uid, WaitingForConfirmation) && r.draft == Some(user.(units := Imperial)))
        && (msg.text != MetricChoice && msg.text != ImperialChoice ==> r.states == states && r.draft == Some(user))
      case WaitingForConfirmation =>
        && (r.writes == [UpdateUser(user)] <==> msg.text == ConfirmChoice)
        && (r.writes == [] <==> msg.text != ConfirmChoice)
        && (r.states == states <==> msg.text == ConfirmChoice && !env.writeOk)
        && (r.states != states ==> r.states == states - {uid})
      case _ => r == LocationOutcome(states, [], Some(user))
    ensures FetchedValid(env) ==> WritesValidUnits(r.writes)
    ensures FetchedValid(env) && r.draft.Some? ==> ValidUnits(r.draft.value.units)
  {
    match env.fetched
    case Failure(_) => LocationOutcome(states, [], None)
    case Success(user) =>
      var uid := user.id;
      if msg.location.Some? then
        // The geocoding call made here has its result discarded.
        LocationOutcome(WithStep(states, uid, WaitingForUnits), [], Some(user))
      else if msg.text == ManualEntryChoice then
        LocationOutcome(WithStep(states, uid, WaitingForCity), [], Some(user))
      else if uid !in states then
        LocationOutcome(states, [], Some(user))
      else
        match states[uid].command
        case WaitingForCity =>
          LocationOutcome(WithStep(states, uid, WaitingForCountry), [], Some(user.(city := msg.text)))
        case WaitingForCountry =>
          LocationOutcome(WithStep(states, uid, WaitingForUnits), [], Some(user.(country := msg.text)))
        case WaitingForUnits =>
          if msg.text == MetricChoice then
            LocationOutcome(WithStep(states, uid, WaitingForConfirmation), [], Some(user.(units := Metric)))
          else if msg.text == ImperialChoice then
            LocationOutcome(WithStep(states, uid, WaitingForConfirmation), [], Some(user.(units := Imperial)))
          else
            LocationOutcome(states, [], Some(user))
        case WaitingForConfirmation =>
          if msg.text == ConfirmChoice then
            if env.writeOk then LocationOutcome(states - {uid}, [UpdateUser(user)], Some(user))
            else LocationOutcome(states, [UpdateUser(user)], Some(user))
          else
            LocationOutcome(states - {uid}, [], Some(user))
        case _ => LocationOutcome(states, [], Some(user))
  }
}
