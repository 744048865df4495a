/**
  The messaging screen of src/screens/CommunicationScreen.tsx: the per-channel write
  permission table, the send guard, and the projection of channel entries into the rows
  the message list displays.
 */
module CommunicationScreen {
  import opened Wrappers
  import opened SchoolTypes
  import opened SchoolContext
  import Text
  import Numerals

  /** The `canWrite` column of `channelInfo`; the table has no row for the representative
      channel. */
  function ChannelInfoCanWrite(role: Option<UserRole>, c: ChannelType): Option<bool> {
    match c
    case Ufficiale => Some(role == Some(Insegnante))
    case Genitori => Some(role == Some(Genitore) || role == Some(UserRole.Rappresentante))
    case Urgenti => Some(role == Some(Insegnante))
    case Assenze => Some(true)
    case CanaleRappresentante => None
  }

  /** `currentChannelInfo?.canWrite || false`. */
  function CanWrite(role: Option<UserRole>, c: ChannelType): (w: bool)
    ensures c == Ufficiale || c == Urgenti ==> (w <==> role == Some(Insegnante))
    ensures c == Genitori ==> (w <==> role == Some(Genitore) || role == Some(UserRole.Rappresentante))
    ensures c == Assenze ==> w
    ensures c == CanaleRappresentante ==> !w
  {
    match ChannelInfoCanWrite(role, c)
    case Some(b) => b
    case None => false
  }

  /** Every channel a role may write to is also among the channels offered to it. */
  lemma WritableIsAvailable(role: Option<UserRole>, c: ChannelType)
    requires CanWrite(role, c)
    ensures c in AvailableChannels(role)
  {
  }

  /** The screen's local state: the selected channel and the composer text. */
  datatype Composer = Composer(activeChannel: ChannelType, messageText: string)

  /** The screen opens on the official channel with an empty composer. */
  const InitialComposer := Composer(Ufficiale, "")

  /** `handleSendMessage`: dispatch the trimmed text to the active channel and clear the
      composer, only when the trimmed text is non-empty and the channel is writable. */
  function HandleSendMessage(s: SchoolState, ui: Composer, now: int)
    : (out: (SchoolState, Option<NotificationRequest>, Composer))
    ensures var sent := Text.Trim(ui.messageText) != [] && CanWrite(s.userRole, ui.activeChannel);
      && (sent ==> (out.0, out.1) == ProviderAddMessage(s, ui.activeChannel, Text.Trim(ui.messageText), now)
                   && out.2 == ui.(messageText := ""))
      && (!sent ==> out == (s, None, ui))
  {
    var text := Text.Trim(ui.messageText);
    if text != [] && CanWrite(s.userRole, ui.activeChannel) then
      var (next, request) := ProviderAddMessage(s, ui.activeChannel, text, now);
      (next, request, ui.(messageText := ""))
    else (s, None, ui)
  }

  /** A send of blank text, or one to a channel the role may not write, changes nothing. */
  lemma HandleSendRejects(s: SchoolState, ui: Composer, now: int)
    requires Text.AllWhitespace(ui.messageText) || !CanWrite(s.userRole, ui.activeChannel)
    ensures HandleSendMessage(s, ui, now) == (s, None, ui)
  {
    Text.TrimEmptyIffBlank(ui.messageText);
  }

  /** A send of non-blank text to a writable channel stores exactly one message at the end,
      whose text is already trimmed, and empties the composer. */
  lemma HandleSendAppends(s: SchoolState, ui: Composer, now: int)
    requires !Text.AllWhitespace(ui.messageText) && CanWrite(s.userRole, ui.activeChannel)
    ensures var r := HandleSendMessage(s, ui, now);
      && |r.0.messages| == |s.messages| + 1
      && r.0.messages[..|s.messages|] == s.messages
      && r.0.messages[|s.messages|].channel == ui.activeChannel
      && Text.Trim(r.0.messages[|s.messages|].text) == r.0.messages[|s.messages|].text
      && r.2.messageText == []
  {
    Text.TrimEmptyIffBlank(ui.messageText);
    Text.TrimIdempotent(ui.messageText);
  }

  /** A row of the message list. `timestamp` is `None` when the text is not a valid date. */
  datatype FormattedMessage = FormattedMessage(
    id: string, text: string, timestamp: Option<int>, sender: string, isOwn: bool)

  /** The row key: the entry's timestamp text, a dash, and the row's position. */
  function RowId(timestamp: string, index: nat): string {
    timestamp + "-" + Numerals.EncodeNat(index)
  }

  /** `formatMessages`: one row per entry, same order; `isOwn` compares the sender with the
      profile name (never equal to an unset name). */
  function FormatMessages(entries: seq<ChannelEntry>, userName: Option<string>): (rows: seq<FormattedMessage>)
    ensures |rows| == |entries|
    ensures forall i :: 0 <= i < |rows| ==>
      && rows[i].text == entries[i].message
      && rows[i].sender == entries[i].sender
      && (rows[i].isOwn <==> userName == Some(entries[i].sender))
      && rows[i].timestamp == ParseInstant(entries[i].timestamp)
      && rows[i].id == RowId(entries[i].timestamp, i)
  {
    seq(|entries|, i requires 0 <= i < |entries| =>
      FormattedMessage(RowId(entries[i].timestamp, i), entries[i].message,
                       ParseInstant(entries[i].timestamp), entries[i].sender,
                       userName == Some(entries[i].sender)))
  }

  /** How many digits end `x`. */
  function DigitSuffixLength(x: string): (n: nat)
    ensures n <= |x|
  {
    if |x| > 0 && Numerals.IsDigit(x[|x| - 1]) then 1 + DigitSuffixLength(x[..|x| - 1]) else 0
  }

  lemma {:induction false} DigitSuffixOfRowId(t: string, e: string)
    requires Numerals.AllDigits(e)
    ensures DigitSuffixLength(t + "-" + e) == |e|
    decreases |e|
  {
    var x := t + "-" + e;
    if e != [] {
      var e' := e[..|e| - 1];
      assert x[..|x| - 1] == t + "-" + e';
      DigitSuffixOfRowId(t, e');
    }
  }

  /** Row keys at different positions differ whatever the timestamps are: the key ends in
      the position's digits after a dash. */
  lemma RowIdsDistinct(t1: string, t2: string, i: nat, j: nat)
    requires i != j
    ensures RowId(t1, i) != RowId(t2, j)
  {
    var ei, ej := Numerals.EncodeNat(i), Numerals.EncodeNat(j);
    var x, y := RowId(t1, i), RowId(t2, j);
    DigitSuffixOfRowId(t1, ei);
    DigitSuffixOfRowId(t2, ej);
    if x == y {
      assert |ei| == |ej|;
      assert ei == x[|x| - |ei|..];
      assert ej == y[|y| - |ej|..];
      Numerals.EncodeIntInjective(i, j);
    }
  }

  /** Formatting what the channel query returns gives every row the instant of its message
      back and pairwise distinct keys. */
  lemma FormatAfterQuery(ms: seq<Message>, c: ChannelType, userName: Option<string>)
    ensures var rows := FormatMessages(MessagesForChannel(ms, c), userName);
      && (forall i :: 0 <= i < |rows| ==> rows[i].timestamp.Some?)
      && (forall i, j :: 0 <= i < j < |rows| ==> rows[i].id != rows[j].id)
  {
    var entries := MessagesForChannel(ms, c);
    var rows := FormatMessages(entries, userName);
    forall i | 0 <= i < |rows| ensures rows[i].timestamp.Some? {
      MessagesForChannelSound(ms, c, entries[i]);
      var k :| 0 <= k < |ms| && ms[k].channel == c && Entry(ms[k]) == entries[i];
      InstantRoundTrip(ms[k].timestamp);
    }
    forall i, j | 0 <= i < j < |rows| ensures rows[i].id != rows[j].id {
      RowIdsDistinct(entries[i].timestamp, entries[j].timestamp, i, j);
    }
  }
}
