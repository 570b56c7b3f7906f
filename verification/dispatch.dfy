/** The handler registration table: message handlers matched on the exact
    command text, callback handlers matched on the exact callback data or on
    a prefix of it, and a default handler for everything else. */
module Dispatch {
  import opened Wrappers
  import opened Text
  import Utils

  datatype MatchType = Exact | Prefix

  /** Every handler of the bot, registered or not. */
  datatype Handler =
    | Start | Help | Calendar | Remind | Request | Weather | Notes | Brief | Inspire
    | SaveToNotes | ShareLocation | Location
    | ManualLocation | NotesAction
    | Default

  datatype Route = Route(pattern: string, matchType: MatchType, handler: Handler)

  /** An inbound update: a chat message (a location message has empty text)
      or a button press. */
  datatype Update = MessageUpdate(text: string) | CallbackUpdate(data: string)

  const MessageRoutes: seq<Route> := [
    Route("/start", Exact, Start),
    Route("/help", Exact, Help),
    Route("/calendar", Exact, Calendar),
    Route("/remind", Exact, Remind),
    Route("/request", Exact, Request),
    Route("/weather", Exact, Weather),
    Route("/notes", Exact, Notes),
    Route("/brief", Exact, Brief),
    Route("/inspire", Exact, Inspire)
  ]

  const CallbackRoutes: seq<Route> := [
    Route("save_to_notes", Exact, SaveToNotes),
    Route("share_location:", Prefix, ShareLocation),
    Route("manual_location", Exact, Location)
  ]

  predicate Matches(r: Route, input: string) {
    match r.matchType
    case Exact => input == r.pattern
    case Prefix => r.pattern <= input
  }

  /** The handler of the first route that matches `input`, if any. */
  function Find(routes: seq<Route>, input: string): (r: Option<Handler>)
    ensures r.None? <==> forall i :: 0 <= i < |routes| ==> !Matches(routes[i], input)
    ensures r.Some? ==> exists i :: 0 <= i < |routes| && Matches(routes[i], input) && routes[i].handler == r.value
                                   && forall j :: 0 <= j < i ==> !Matches(routes[j], input)
  {
    if |routes| == 0 then None
    else if Matches(routes[0], input) then Some(routes[0].handler)
    else
      var r := Find(routes[1..], input);
      if r.Some? then
        var i :| 0 <= i < |routes[1..]| && Matches(routes[1..][i], input) && routes[1..][i].handler == r.value
                 && forall j :: 0 <= j < i ==> !Matches(routes[1..][j], input);
        assert forall j :: 0 <= j < i + 1 ==> !Matches(routes[j], input) by {
          forall j | 0 <= j < i + 1 ensures !Matches(routes[j], input) {
            if j > 0 { assert routes[j] == routes[1..][j - 1]; }
          }
        }
        r
      else
        assert forall i :: 1 <= i < |routes| ==> routes[i] == routes[1..][i - 1];
        r
  }

  function OrDefault(h: Option<Handler>): Handler {
    if h.Some? then h.value else Default
  }

  /** The table an update is looked up in, and the string it is matched on. */
  function RoutesFor(u: Update): seq<Route> {
    if u.MessageUpdate? then MessageRoutes else CallbackRoutes
  }

  function InputOf(u: Update): string {
    if u.MessageUpdate? then u.text else u.data
  }

  /** The handler an update is given to: the default handler exactly when no
      route of its table matches, and otherwise the handler of a matching
      route. */
  function Dispatch(u: Update): (h: Handler)
    ensures h == Default <==> forall i :: 0 <= i < |RoutesFor(u)| ==> !Matches(RoutesFor(u)[i], InputOf(u))
    ensures h != Default ==>
      exists i :: 0 <= i < |RoutesFor(u)| && Matches(RoutesFor(u)[i], InputOf(u)) && RoutesFor(u)[i].handler == h
  {
    FindOnlyTableHandlers(RoutesFor(u), InputOf(u), Default);
    OrDefault(Find(RoutesFor(u), InputOf(u)))
  }

  /** No input matches two routes of the table, so the order in which the
      routes are tried does not matter. */
  ghost predicate Unambiguous(routes: seq<Route>) {
    forall i, j, input :: 0 <= i < j < |routes| && Matches(routes[i], input) ==> !Matches(routes[j], input)
  }

  lemma TablesUnambiguous()
    ensures Unambiguous(MessageRoutes)
    ensures Unambiguous(CallbackRoutes)
  {
    forall i, j, input | 0 <= i < j < |CallbackRoutes| && Matches(CallbackRoutes[i], input)
      ensures !Matches(CallbackRoutes[j], input)
    {
      if i == 0 && j == 1 {
        assert |input| < |"share_location:"|;
      } else if i == 1 && j == 2 {
        assert input[0] == 's';
      }
    }
  }

  /** In an unambiguous table the route that matches is the one chosen. */
  lemma FindMatching(routes: seq<Route>, input: string, i: nat)
    requires Unambiguous(routes)
    requires i < |routes| && Matches(routes[i], input)
    ensures Find(routes, input) == Some(routes[i].handler)
  {
  }

  /** The buttons the bot sends reach their handlers: the share button the
      prefix route, the manual button the exact route of the location
      handler, and the save button the save handler. */
  lemma ButtonsReachTheirHandlers(messageId: Int64)
    ensures Dispatch(CallbackUpdate(Utils.ShareLocationData(messageId))) == ShareLocation
    ensures Dispatch(CallbackUpdate(Utils.ManualLocationData)) == Location
    ensures Dispatch(CallbackUpdate(Utils.SaveToNotesData)) == SaveToNotes
  {
    TablesUnambiguous();
    var share := Utils.ShareLocationData(messageId);
    assert CallbackRoutes[1].pattern == Utils.ShareLocationTag + ":";
    assert Matches(CallbackRoutes[1], share);
    FindMatching(CallbackRoutes, share, 1);
    assert Matches(CallbackRoutes[2], Utils.ManualLocationData);
    FindMatching(CallbackRoutes, Utils.ManualLocationData, 2);
    assert Matches(CallbackRoutes[0], Utils.SaveToNotesData);
    FindMatching(CallbackRoutes, Utils.SaveToNotesData, 0);
  }

  /** A handler no route names is never found. */
  lemma FindOnlyTableHandlers(routes: seq<Route>, input: string, h: Handler)
    requires forall i :: 0 <= i < |routes| ==> routes[i].handler != h
    ensures Find(routes, input) != Some(h)
  {
  }

  /** The manual-location and notes-action handlers are not registered: no
      update reaches them. */
  lemma UnregisteredHandlersUnreachable(u: Update)
    ensures Dispatch(u) != ManualLocation && Dispatch(u) != NotesAction
  {
    var routes := if u.MessageUpdate? then MessageRoutes else CallbackRoutes;
    var input := if u.MessageUpdate? then u.text else u.data;
    assert forall i :: 0 <= i < |routes| ==> routes[i].handler != ManualLocation && routes[i].handler != NotesAction;
    FindOnlyTableHandlers(routes, input, ManualLocation);
    FindOnlyTableHandlers(routes, input, NotesAction);
  }

  /** A chat message that is not one of the commands goes to the default
      handler; in particular typed text never reaches the location handler. */
  lemma PlainTextGoesToDefault(text: string)
    requires forall i :: 0 <= i < |MessageRoutes| ==> text != MessageRoutes[i].pattern
    ensures Dispatch(MessageUpdate(text)) == Default
  {
  }
}
