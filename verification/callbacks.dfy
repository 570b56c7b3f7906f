/** The callback handlers of callback_handlers.go, reduced to what they do to
    the conversation state and the user store. */
module Callbacks {
  import opened Wrappers
  import opened Text
  import opened Db
  import opened Events
  import Utils

  /** The message id a `<tag>:<id>` callback carries: the text between the
      first `:` and the next one (or the end), read as a 64-bit decimal.
      Data without a `:` has no such segment. */
  function ParseMessageId(data: string): (r: Option<Int64>)
    requires ':' in data
    ensures var tag := Split(data, ':')[0];
      var segment := Split(data, ':')[1];
      && ':' !in tag && ':' !in segment
      && tag + ":" + segment <= data
      && (|tag| + 1 + |segment| < |data| ==> data[|tag| + 1 + |segment|] == ':')
      && (r.Some? <==> IsDecimal(segment) && MinInt64 <= DecimalValue(segment) <= MaxInt64)
      && (r.Some? ==> r.value == DecimalValue(segment))
  {
    SplitSecondPart(data, ':');
    Atoi(Split(data, ':')[1])
  }

  /** Only the segment between the first and the second `:` is read. */
  lemma ParseReadsSecondSegment(tag: string, id: string, rest: string)
    requires ':' !in tag && ':' !in id
    ensures ParseMessageId(tag + ":" + id) == Atoi(id)
    ensures ParseMessageId(tag + ":" + id + ":" + rest) == Atoi(id)
  {
    assert Split(tag + ":" + id, ':') == [tag, id] by {
      SplitWithoutSep(id, ':');
      SplitAtFirst(tag, ':', id);
    }
    assert Split(tag + ":" + id + ":" + rest, ':')[1] == id by {
      assert tag + ":" + id + ":" + rest == tag + [':'] + (id + [':'] + rest);
      SplitAtFirst(tag, ':', id + [':'] + rest);
      SplitAtFirst(id, ':', rest);
    }
  }

  /** The share button's data reads back as the id it was built from. */
  lemma ShareDataRoundTrip(messageId: Int64)
    ensures ':' in Utils.ShareLocationData(messageId)
    ensures ParseMessageId(Utils.ShareLocationData(messageId)) == Some(messageId)
  {
    FormatIntRoundTrip(messageId);
  }

  /** The source's way of setting an entry: make an empty one if the user has
      none, then assign the argument and the step through it. */
  function SetEntry(states: StateMap, uid: int, step: Step, argument: Option<int>): (r: StateMap)
    ensures uid in r && r[uid] == StateInfo(step, argument)
    ensures OnlyTouches(states, r, uid) && r.Keys == states.Keys + {uid}
    ensures r == states[uid := StateInfo(step, argument)]
  {
    var base := if uid in states then states else states[uid := EmptyState];
    base[uid := base[uid].(argument := argument).(command := step)]
  }

  /** `shareLocationHandler`: waits for the location, remembering the id of
      the message that asked for it; unparsable data changes nothing. */
  function ShareLocationHandler(states: StateMap, cb: CallbackQuery): (r: StateMap)
    requires ':' in cb.data
    ensures ParseMessageId(cb.data).None? ==> r == states
    ensures ParseMessageId(cb.data).Some? ==>
      && cb.from in r && r[cb.from] == StateInfo(WaitingForLocation, Some(ParseMessageId(cb.data).value))
      && OnlyTouches(states, r, cb.from)
      && r.Keys == states.Keys + {cb.from}
  {
    match ParseMessageId(cb.data)
    case None => states
    case Some(id) => SetEntry(states, cb.from, WaitingForLocation, Some(id))
  }

  /** `manualLocationHandler`: the same, but waiting for a typed city. */
  function ManualLocationHandler(states: StateMap, cb: CallbackQuery): (r: StateMap)
    requires ':' in cb.data
    ensures ParseMessageId(cb.data).None? ==> r == states
    ensures ParseMessageId(cb.data).Some? ==>
      && cb.from in r && r[cb.from] == StateInfo(WaitingForCity, Some(ParseMessageId(cb.data).value))
      && OnlyTouches(states, r, cb.from)
      && r.Keys == states.Keys + {cb.from}
  {
    match ParseMessageId(cb.data)
    case None => states
    case Some(id) => SetEntry(states, cb.from, WaitingForCity, Some(id))
  }

  /** The manual button carries no id, so it cannot be given to the manual
      location handler: its data has no second segment. */
  lemma ManualButtonHasNoId()
    ensures ':' !in Utils.ManualLocationData
  {
  }

  const NotesDelete := "notes_delete"
  const NotesEdit := "notes_edit"
  const NotesShare := "notes_share"
  const NotesAdd := "notes_add"

  /** `notesActionHandler`: makes sure the user has an entry, then moves it
      to the note sub-flow the action names, keeping the argument. An
      unsupported action leaves the (possibly fresh) entry as it is. */
  function NotesActionHandler(states: StateMap, cb: CallbackQuery): (r: StateMap)
    ensures cb.from in r && OnlyTouches(states, r, cb.from) && r.Keys == states.Keys + {cb.from}
    ensures r[cb.from].argument == (if cb.from in states then states[cb.from].argument else None)
    ensures cb.data == NotesDelete ==> r[cb.from].command == WaitingForNoteDeleteId
    ensures cb.data == NotesEdit ==> r[cb.from].command == WaitingForNoteEditId
    ensures cb.data == NotesShare ==> r[cb.from].command == WaitingForNoteShareId
    ensures cb.data == NotesAdd ==> r[cb.from].command == WaitingForNoteAdd
    ensures cb.data !in {NotesDelete, NotesEdit, NotesShare, NotesAdd} ==>
      r[cb.from] == (if cb.from in states then states[cb.from] else EmptyState)
  {
    var uid := cb.from;
    var base := if uid in states then states else states[uid := EmptyState];
    var entry := base[uid];
    if cb.data == NotesDelete then base[uid := entry.(command := WaitingForNoteDeleteId)]
    else if cb.data == NotesEdit then base[uid := entry.(command := WaitingForNoteEditId)]
    else if cb.data == NotesShare then base[uid := entry.(command := WaitingForNoteShareId)]
    else if cb.data == NotesAdd then base[uid := entry.(command := WaitingForNoteAdd)]
    else base
  }

  /** `saveToNotesHandler`: adds the text of the message the button was on as
      a note of the pressing user, unless the user cannot be fetched. The
      state is not touched. */
  function SaveToNotesHandler(cb: CallbackQuery, env: Env): (writes: seq<StoreWrite>)
    ensures env.fetched.Failure? ==> writes == []
    ensures env.fetched.Success? ==>
      |writes| == 1 && writes[0].AddNote?
      && writes[0].note.text == cb.messageText
      && writes[0].note.owner == env.fetched.value.id
    ensures WritesValidUnits(writes)
  {
    match env.fetched
    case Failure(_) => []
    case Success(owner) => [AddNote(Note(0, cb.messageText, owner.id))]
  }
}
