/** The inline keyboards the bot attaches to its messages and the callback
    data their buttons carry. */
module Utils {
  import opened Text

  datatype Button = Button(text: string, data: string)

  /** An inline keyboard: rows of buttons, top row first. */
  datatype Keyboard = Keyboard(rows: seq<seq<Button>>)

  const ShareLocationTag := "share_location"
  const ManualLocationData := "manual_location"
  const SaveToNotesData := "save_to_notes"

  /** Callback data of the share button: the tag, a colon, and the id of the
      message that asked for the location, in decimal. */
  function ShareLocationData(messageId: Int64): (data: string)
    ensures |data| == |ShareLocationTag| + 1 + |FormatInt(messageId)|
    ensures data[..|ShareLocationTag| + 1] == ShareLocationTag + ":"
    ensures data[|ShareLocationTag| + 1..] == FormatInt(messageId)
    ensures Split(data, ':') == [ShareLocationTag, FormatInt(messageId)]
  {
    var digits := FormatInt(messageId);
    var data := ShareLocationTag + [':'] + digits;
    assert data[..|ShareLocationTag| + 1] == ShareLocationTag + ":";
    assert data[|ShareLocationTag| + 1..] == digits;
    SplitWithoutSep(digits, ':');
    SplitAtFirst(ShareLocationTag, ':', digits);
    data
  }

  /** `SaveToNotesButton`: one row holding the save button. */
  function SaveToNotesButton(): (kb: Keyboard)
    ensures |kb.rows| == 1 && |kb.rows[0]| == 1
    ensures kb.rows[0][0].data == SaveToNotesData
  {
    Keyboard([[Button("\U{1F4BE} Save to Notes", SaveToNotesData)]])
  }

  /** `RequestLocation`: a share button carrying `messageId` on the first
      row, and a manual-entry button carrying no id on the second. */
  function RequestLocation(messageId: Int64): (kb: Keyboard)
    ensures |kb.rows| == 2 && |kb.rows[0]| == 1 && |kb.rows[1]| == 1
    ensures kb.rows[0][0].data == ShareLocationData(messageId)
    ensures kb.rows[1][0].data == ManualLocationData
    ensures ':' !in kb.rows[1][0].data
  {
    Keyboard([
      [Button("\U{1F4CD} Share Location", ShareLocationData(messageId))],
      [Button("\U{270F}\U{FE0F} Manual Input", ManualLocationData)]
    ])
  }
}
