/** Whole dialogues, event by event: onboarding by a shared location,
    the manual steps through the location handler, and where typed text
    actually goes. */
module Flows {
  import opened Wrappers
  import opened Text
  import opened Db
  import opened Events
  import Utils
  import Dispatch
  import Dialogue
  import Callbacks
  import ApiClients

  /** `/start` from an unknown sender registers them and offers the keyboard
      whose share button carries the id of the `/start` message. */
  lemma StartOffersShareButton(start: Message, env: Env)
    requires !env.known
    ensures var started := Dialogue.StartHandler(Some(start), env);
      && started.writes == [AddUser(Dialogue.Registration(start.from))]
      && started.replies[1] == Dialogue.AskLocation(Utils.RequestLocation(start.id))
  {
  }

  /** Pressing that share button is routed to the share handler, which waits
      for a location and remembers the id of the `/start` message. */
  lemma ShareButtonAwaitsLocation(states: StateMap, start: Message)
    ensures var data := Utils.RequestLocation(start.id).rows[0][0].data;
      && Dispatch.Dispatch(Dispatch.CallbackUpdate(data)) == Dispatch.ShareLocation
      && ':' in data
      && Callbacks.ShareLocationHandler(states, CallbackQuery(start.from.id, data, ""))
         == states[start.from.id := StateInfo(WaitingForLocation, Some(start.id as int))]
  {
    var data := Utils.RequestLocation(start.id).rows[0][0].data;
    assert Dispatch.Dispatch(Dispatch.CallbackUpdate(data)) == Dispatch.ShareLocation by {
      Dispatch.ButtonsReachTheirHandlers(start.id);
    }
    assert ':' in data && Callbacks.ParseMessageId(data) == Some(start.id) by {
      Callbacks.ShareDataRoundTrip(start.id);
    }
    var uid := start.from.id;
    assert Callbacks.ShareLocationHandler(states, CallbackQuery(uid, data, ""))
        == Callbacks.SetEntry(states, uid, WaitingForLocation, Some(start.id as int));
  }

  /** A location message has no text, so it goes to the default handler;
      while the sender awaits a location and every call succeeds, it writes
      the geocoded city and country and ends the dialogue. */
  lemma SharedLocationEndsDialogue(states: StateMap, loc: Message, env: Env)
    requires loc.from.id in states && states[loc.from.id].command == WaitingForLocation
    requires loc.location.Some? && loc.text == ""
    requires env.geocode.Success? && env.fetched.Success? && env.fetched.value.id == loc.from.id && env.writeOk
    ensures Dispatch.Dispatch(Dispatch.MessageUpdate(loc.text)) == Dispatch.Default
    ensures var done := Dialogue.DefaultHandler(states, Some(loc), env);
      && done.states == states - {loc.from.id}
      && done.writes == [UpdateUser(Dialogue.Located(env.fetched.value, env.geocode.value))]
  {
    Dispatch.PlainTextGoesToDefault(loc.text);
  }

  /** Onboarding by location, end to end: `/start` from an unknown sender
      registers them, the share button it replies with is pressed, then the
      location arrives; the user is left with no entry and one update. */
  lemma OnboardingBySharedLocation(states: StateMap, start: Message, env: Env, loc: Message, env2: Env)
    requires !env.known
    requires loc.from.id == start.from.id && loc.location.Some? && loc.text == ""
    requires env2.geocode.Success? && env2.fetched.Success? && env2.fetched.value.id == start.from.id
    requires env2.writeOk
    ensures var started := Dialogue.StartHandler(Some(start), env);
      && started.writes == [AddUser(Dialogue.Registration(start.from))]
      && |started.replies| >= 2 && started.replies[1].AskLocation?
      && |started.replies[1].keyboard.rows| >= 1 && |started.replies[1].keyboard.rows[0]| >= 1
      && var data := started.replies[1].keyboard.rows[0][0].data;
      && ':' in data
      && var waiting := Callbacks.ShareLocationHandler(states, CallbackQuery(start.from.id, data, ""));
      && var done := Dialogue.DefaultHandler(waiting, Some(loc), env2);
      && done.states == states - {start.from.id}
      && done.writes == [UpdateUser(Dialogue.Located(env2.fetched.value, env2.geocode.value))]
  {
    StartOffersShareButton(start, env);
    var uid := start.from.id;
    var data := Utils.RequestLocation(start.id).rows[0][0].data;
    ShareButtonAwaitsLocation(states, start);
    var waiting := Callbacks.ShareLocationHandler(states, CallbackQuery(uid, data, ""));
    SharedLocationEndsDialogue(waiting, loc, env2);
    assert waiting - {uid} == states - {uid};
  }

  /** Pressing the manual button reaches the location handler, which fails
      on the missing message whenever the user can be fetched: the manual
      steps are never entered from the keyboard the bot sends. */
  lemma ManualButtonPressFaults(states: StateMap, cb: CallbackQuery, env: Env)
    requires cb.data == Utils.ManualLocationData
    ensures Dispatch.Dispatch(Dispatch.CallbackUpdate(cb.data)) == Dispatch.Location
    ensures env.fetched.Success? ==> Dialogue.LocationHandlerOnPress(states, cb, env) == Failure(Dialogue.NilMessage)
    ensures env.fetched.Failure? ==> Dialogue.LocationHandlerOnPress(states, cb, env) == Success(Outcome(states, []))
  {
    Dispatch.ButtonsReachTheirHandlers(0);
  }

  function Typed(from: Sender, text: string): Message {
    Message(0, from, text, None)
  }

  /** The manual steps through the location handler: the manual choice, a
      city, a country, the metric label and Confirm lead from any entry to no
      entry, with exactly one update of the record as the store returned it;
      every intermediate step keeps the entry's argument. */
  lemma ManualDialogueCompletes(states: StateMap, from: Sender, user: User, city: string, country: string)
    requires user.id in states
    requires city != Dialogue.ManualEntryChoice && country != Dialogue.ManualEntryChoice
    ensures
      var env := Env(true, Success(user), true, Failure(ApiClients.RequestFailed));
      var arg := states[user.id].argument;
      var s1 := Dialogue.LocationHandler(states, Typed(from, Dialogue.ManualEntryChoice), env).states;
      && s1[user.id] == StateInfo(WaitingForCity, arg)
      && var s2 := Dialogue.LocationHandler(s1, Typed(from, city), env).states;
      && s2[user.id] == StateInfo(WaitingForCountry, arg)
      && var s3 := Dialogue.LocationHandler(s2, Typed(from, country), env).states;
      && s3[user.id] == StateInfo(WaitingForUnits, arg)
      && var s4 := Dialogue.LocationHandler(s3, Typed(from, Dialogue.MetricChoice), env).states;
      && s4[user.id] == StateInfo(WaitingForConfirmation, arg)
      && var done := Dialogue.LocationHandler(s4, Typed(from, Dialogue.ConfirmChoice), env);
      && done.states == states - {user.id}
      && done.writes == [UpdateUser(user)]
  {
    var env := Env(true, Success(user), true, Failure(ApiClients.RequestFailed));
    var s1 := Dialogue.LocationHandler(states, Typed(from, Dialogue.ManualEntryChoice), env).states;
    var s2 := Dialogue.LocationHandler(s1, Typed(from, city), env).states;
    var s3 := Dialogue.LocationHandler(s2, Typed(from, country), env).states;
    var s4 := Dialogue.LocationHandler(s3, Typed(from, Dialogue.MetricChoice), env).states;
    assert s4 - {user.id} == states - {user.id};
  }

  /** Text typed during the manual steps is dispatched to the default
      handler, which ignores it: outside of waiting for a location, a typed
      reply changes neither the state nor the store. */
  lemma TypedRepliesIgnored(states: StateMap, msg: Message, env: Env)
    requires msg.from.id in states && states[msg.from.id].command != WaitingForLocation
    requires forall i :: 0 <= i < |Dispatch.MessageRoutes| ==> msg.text != Dispatch.MessageRoutes[i].pattern
    ensures Dispatch.Dispatch(Dispatch.MessageUpdate(msg.text)) == Dispatch.Default
    ensures Dialogue.DefaultHandler(states, Some(msg), env) == Outcome(states, [])
  {
  }

  /** A user with no dialogue in progress is ignored by the default handler. */
  lemma NoDialogueIgnored(states: StateMap, msg: Message, env: Env)
    requires msg.from.id !in states
    ensures Dialogue.DefaultHandler(states, Some(msg), env) == Outcome(states, [])
  {
  }

  /** A geocoding response without features is an error, so a location
      shared then leaves the dialogue where it was and writes nothing. */
  lemma NoFeaturesKeepsDialogue(states: StateMap, loc: Message, env: Env)
    requires env.geocode == ApiClients.LocationFromResponse(Success([]))
    ensures Dialogue.DefaultHandler(states, Some(loc), env) == Outcome(states, [])
  {
  }
}
