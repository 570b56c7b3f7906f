# Personal assistant bot: dialogue state machine

A Dafny model of the per-user dialogue of a Telegram assistant bot written in
Go. The bot keeps an in-memory map from user id to a `UserStateInfo` record
(an active command and an argument). Its handlers read and write that map as
a user goes through onboarding and location capture. The model makes the
map a `map<int, StateInfo>`. The active command becomes the closed datatype
`Db.Step`, and the argument becomes an optional message id. Each handler is
a pure function of:

- the map;
- the inbound message or button press;
- what the user store and the geocoding provider answer during the update
  (`Events.Env`).

Each handler returns the new map and the store writes it issued
(`Events.StoreWrite`).

Around the state machine, the model covers:

- the callback-data strings the keyboards carry, and how they are decoded
  (Go's `strings.Split`, `%d` and `strconv.Atoi`, in module `Text`);
- the handler registration table, as an exact/prefix matcher;
- what the weather, quote and geocoding clients do with a decoded response;
- the default user record.

Modules follow the source files:

| module | source |
|---|---|
| `Wrappers` | `Option` and `Result`, standing for Go's nil pointers and `(value, error)` pairs |
| `Text` | the `strings`/`strconv`/`fmt` behaviour the callback data relies on |
| `Db` | internal/db/models.go and internal/db/constructors.go |
| `ApiClients` | apiClients.go after JSON decoding |
| `Utils` | utils.go keyboards |
| `Dispatch` | the registration table in main.go |
| `Events` | inbound updates, store and provider answers, store writes |
| `Dialogue` | `startHandler`, `defaultHandler` and `locationHandler` of main.go |
| `Callbacks` | callback_handlers.go |
| `Flows` | multi-event dialogues |

What the model shows about the code as written:

- **A shared location ends the dialogue.** The share button leads to
  `waiting_for_location`. The location message then goes to the default
  handler. On success, that handler writes the geocoded city and country and
  deletes the user's entry. It does not move the user on to unit selection.
  Any failure leaves the entry in place (`Dialogue.DefaultHandler`); the whole
  path from `/start` is `Flows.OnboardingBySharedLocation`.
- **The manual steps are never entered.** The steps for city, country,
  units and confirmation live in the location handler. The only update
  routed there is the `manual_location` button press, and a button press
  carries no chat message. Whenever the user can be fetched, the handler
  then reads the location of a nil message and panics
  (`Flows.ManualButtonPressFaults`). Typed text goes to the default handler
  instead, which ignores it in every step except `waiting_for_location`
  (`Flows.TypedRepliesIgnored`).
- **Typed details are never persisted.** Taken on its own terms, as if it
  were given a chat message, the location handler edits a record it has just fetched from the store, and that edit is
  lost when the call returns. On Confirm, the record it writes is the one the
  store returned, not one holding the city, country and units entered earlier
  (`Flows.ManualDialogueCompletes`).
- **`/start` creates no dialogue.** It never creates a state entry; the
  dialogue begins when the share button is pressed.
- **Two handlers are never reached.** `manualLocationHandler` and
  `notesActionHandler` are not registered (`Dispatch.UnregisteredHandlersUnreachable`).

The geocoding client indexes `features[0]` without checking the list, so an
empty feature list would panic. The model returns the error `NoFeatures`
instead.

## Model

| member | source | states |
|---|---|---|
| `Text.Split` | callback_handlers.go:92 | splitting on `:` gives at least one part, no part contains the separator, joining the parts back gives the input, and there is a single part exactly when the separator is absent |
| `Text.SplitWithoutSep` | callback_handlers.go:92 | a string with no separator splits into itself alone |
| `Text.SplitAtFirst` | callback_handlers.go:92 | the first part is the text before the first separator, and the rest is split independently |
| `Text.SplitFirstPart` | main.go:162 | the first part is a prefix of the input, followed by a separator whenever it is shorter than the input |
| `Text.SplitSecondPart` | callback_handlers.go:92 | when the separator occurs, the second part is the text right after the first separator, up to the next separator or the end |
| `Text.FormatNat` | utils.go:34 | the decimal digits of n denote n and have no leading zero |
| `Text.FormatInt` | utils.go:34 | `%d` puts a minus sign before the digits of negative values and never produces a `:` |
| `Text.Atoi` | callback_handlers.go:91-93 | Atoi succeeds exactly on an optional sign followed by one or more digits whose value fits in 64 bits, and then returns that value |
| `Text.FormatIntRoundTrip` | callback_handlers.go:91-93 | Atoi reads back every 64-bit integer that `%d` writes |
| `Db.NewUserObject` | internal/db/constructors.go:5-12 | the default user is English, metric (one of the two allowed unit systems) and active, with zero id and empty name, city, country and phone |
| `ApiClients.WeatherUrl` | apiClients.go:18-22 | the weather URL is the wttr.in base, then the country, a `-` and the city, then `?format=j1` |
| `ApiClients.WeatherUrlInjective` | apiClients.go:18-22 | when the country has no `-`, two requests for different places never share a URL |
| `ApiClients.UnitSystemOf` | apiClients.go:70-84 | "imperial" and "i" select imperial fields; "metric" and "m" select metric fields |
| `ApiClients.ValidUnitsRecognised` | apiClients.go:70-84 | both unit values a user record may hold are recognised by the weather client |
| `ApiClients.WeatherFromResponse` | apiClients.go:64-103 | the result is absent exactly when the request failed or `current_condition` is empty. Imperial selects F, inches and miles, with wind = mph + " " + 16-point direction. Metric selects C, mm and the plain pressure and visibility, with wind = km/h + " " + degrees. Any other units string gives empty weather fields. City, country and units always come from the arguments |
| `ApiClients.QuoteFromResponse` | apiClients.go:133-140 | a quote exists exactly when the request succeeded. It carries the decoded text and author, source "The Quote Hub", language "en" and an empty URL |
| `ApiClients.QuoteIgnoresLanguage` | apiClients.go:133-140 | the language argument has no effect on the quote |
| `ApiClients.LocationFromResponse` | apiClients.go:182-189 | a request failure passes through, an empty feature list is the error NoFeatures, and otherwise the six fields of the first feature are copied |
| `Utils.ShareLocationData` | utils.go:34 | the share data is "share_location:" followed by the decimal message id, and it splits into exactly those two parts |
| `Utils.SaveToNotesButton` | utils.go:12-26 | one row with one button whose data is exactly "save_to_notes" |
| `Utils.RequestLocation` | utils.go:29-49 | two rows of one button each: the share button carrying the message id first, then the manual button, whose data "manual_location" carries no id |
| `Dispatch.Find` | main.go:49-70 | a route is chosen exactly when one matches. The chosen route matches and no earlier route does |
| `Dispatch.Dispatch` | main.go:49-70 | a message is looked up among the command routes and a button press among the callback routes; the default handler gets the update exactly when no route matches, and otherwise the handler of a matching route does |
| `Dispatch.TablesUnambiguous` | main.go:49-66 | no command text or callback data matches two routes of the table |
| `Dispatch.FindMatching` | main.go:49-70 | in an unambiguous table, the route that matches is the one chosen, whatever the order |
| `Dispatch.ButtonsReachTheirHandlers` | main.go:60-66 | share data goes to the prefix route, "manual_location" to the location handler (not the manual-location handler), and "save_to_notes" to the save handler |
| `Dispatch.FindOnlyTableHandlers` | main.go:49-70 | a handler that no route names is never chosen |
| `Dispatch.UnregisteredHandlersUnreachable` | main.go:49-70 | no update reaches the manual-location or notes-action handlers |
| `Dispatch.PlainTextGoesToDefault` | main.go:49-69 | a message that is not a command goes to the default handler |
| `Dialogue.FirstWord` | main.go:161-163 | the welcome-back name is the text before the first space of the stored name |
| `Dialogue.Registration` | main.go:118-125 | a new user record is the default user with the sender's id, Name = FirstName + " " + LastName, and the client's language code |
| `Dialogue.StartHandler` | main.go:109-169 | with no message, nothing happens. An unknown sender is greeted, offered the location keyboard for the `/start` message and written with AddUser, and an error is reported exactly when AddUser fails. A known sender causes no write and is welcomed back by first word, or gets an error when GetUser fails. Every written record has valid units |
| `Dialogue.WelcomeBackByFirstName` | main.go:118-163 | a user registered by `/start` is welcomed back by their first name when that name has no space |
| `Dialogue.Located` | main.go:203-204 | the updated record takes city and country from the geocoding result and keeps every other field |
| `Dialogue.DefaultHandler` | main.go:171-232 | nothing happens without a message, without an entry, outside `waiting_for_location`, or without a location. A geocode or GetUser failure changes nothing. Otherwise the handler issues one UpdateUser with the geocoded city and country, and deletes the user's entry only if that update succeeds. The map only ever loses that one entry |
| `Dialogue.WithStep` | main.go:280 | assigning the step of an existing entry keeps its argument and leaves all other entries alone |
| `Dialogue.LocationHandlerOnPress` | main.go:234-248 | on the button press it is routed from, a GetUser failure changes nothing and writes nothing; a GetUser success ends in the nil-message fault |
| `Dialogue.LocationHandler` | main.go:234-403 | given a chat message (which the routed press never supplies): a GetUser failure changes nothing. A location sets `waiting_for_units` and "No, enter manually" sets `waiting_for_city`, whatever the prior step; both require the entry. City leads to country and country to units, with no writes. Units accepts only the two labels, assigning "metric" or "imperial" and moving to confirmation; other text changes nothing. Confirmation calls UpdateUser exactly on "Confirm" and keeps the entry exactly when that update fails; every other path deletes it. Only the user's own entry changes, and no entry is created |
| `Callbacks.ParseMessageId` | callback_handlers.go:91-93 | the id is read from the colon-free text between the first `:` and the next `:` or the end; it exists exactly when that text is an optional sign and digits whose value fits in 64 bits, and it is that value |
| `Callbacks.ParseReadsSecondSegment` | callback_handlers.go:91-93 | only the segment between the first and second `:` is parsed; later segments are ignored |
| `Callbacks.ShareDataRoundTrip` | callback_handlers.go:91-93 | parsing the share button's data gives back the message id it was built from |
| `Callbacks.SetEntry` | callback_handlers.go:101-106 | creating an empty entry if missing and then assigning argument and step is the same as overwriting the entry in both fields; all other entries are untouched |
| `Callbacks.ShareLocationHandler` | callback_handlers.go:81-107 | on data whose id parses, the entry becomes `waiting_for_location` with that id, overwriting both fields, and no other entry changes. Unparsable data leaves the map unchanged and creates no entry |
| `Callbacks.ManualLocationHandler` | callback_handlers.go:109-135 | the same, with `waiting_for_city`. Data without a `:` is outside its precondition |
| `Callbacks.ManualButtonHasNoId` | utils.go:40 | the manual button's data has no `:`, so it has no id segment to parse |
| `Callbacks.NotesActionHandler` | callback_handlers.go:39-79 | the user always ends up with an entry whose argument is kept. The four actions select the delete/edit/share id steps or the note-add step. Unrecognised data leaves the prior entry, or a fresh empty one |
| `Callbacks.SaveToNotesHandler` | callback_handlers.go:14-37 | a GetUser failure adds no note. Otherwise one note is added, with the message text and the user's id as owner |
| `Flows.StartOffersShareButton` | main.go:118-144 | `/start` from an unknown sender writes the registration and offers the keyboard for that message's id |
| `Flows.ShareButtonAwaitsLocation` | callback_handlers.go:91-106 | pressing the offered share button is routed to the share handler, which records `waiting_for_location` with the `/start` message id |
| `Flows.SharedLocationEndsDialogue` | main.go:179-228 | a location from a waiting user, with every call succeeding, deletes the entry and writes the geocoded city and country |
| `Flows.OnboardingBySharedLocation` | main.go:118-228 | `/start` from an unknown sender writes the registration; the share button of its reply, then a location, all succeeding, leave the user with no entry and one update |
| `Flows.ManualButtonPressFaults` | main.go:66 | the manual button is routed to the location handler, which faults on the missing message when GetUser succeeds and otherwise changes nothing |
| `Flows.ManualDialogueCompletes` | main.go:282-400 | the manual choice, a city, a country, the metric label and Confirm move through city, country, units and confirmation, keeping the argument, and end with no entry and one update of the fetched record |
| `Flows.TypedRepliesIgnored` | main.go:175-181 | typed text goes to the default handler, and changes nothing unless the user is waiting for a location |
| `Flows.NoDialogueIgnored` | main.go:175-178 | a user with no entry is ignored by the default handler |
| `Flows.NoFeaturesKeepsDialogue` | apiClients.go:182-189 | a geocoding response with no features leaves the dialogue unchanged and writes nothing |

## Left out

- HTTP requests, timeouts and JSON decoding: the clients take the decoded record (or a request failure) as input.
- The `%f` formatting of latitude and longitude in the geocoding URL, because it is floating point; coordinates are only carried.
- Telegram transport: sending and deleting messages, answering callbacks, and keyboard rendering. Reply texts are not modelled, except the `/start` replies, which carry the location keyboard.
- The remote user store: its answers are inputs (`Events.Env`), and its writes are outputs. `UpdateUser` and `DeleteUser` are stubs returning nil in the store implementation; the model allows either outcome.
- Process startup (environment variables, the connection retry loop, fatal exits) and the signal context.
- Concurrency: the global map is unsynchronised; the model handles one update at a time.
- Timestamps: `JoinedAt` and the notes' `CreatedAt` come from the clock.
- The deletion of the message that asked for the location: it reads a field that the state record does not declare. The message id kept as the entry's argument is what it would need.
- The geocoding call the location handler makes and ignores: it has no effect on state or store.
- `Text.Atoi`: does not tell a syntax error from a range error, because the handlers only test whether an error occurred.
- User ids are unbounded integers, not 64-bit ones, because they are only compared and used as keys. Message ids are 64-bit (`Text.Int64`), because they are formatted and parsed.
- Dialogue.LocationHandler: describes a chat message the handler never receives. Its only route is the `manual_location` button press, which carries no message, so every call in which GetUser succeeds dereferences a nil message and panics. That call is `Dialogue.LocationHandlerOnPress`; `Dialogue.LocationHandler` and `Flows.ManualDialogueCompletes` state what the branches would do if a message were there.
- The help, calendar, remind, request and brief handlers are stubs that only send a fixed text.
- The weather, notes and inspire command handlers only read from the store or a provider and format a reply.
- The persistence interface declarations, which disagree with their call sites, and the unused duplicate types in the root models file.
