/**
  The original single-file app, App.js: profile fields and messages as plain component
  state, a setup-complete check, a send handler guarded by the composer text and the
  name, a filter per channel, and a fixed list of four channels. An empty string stands
  for "not chosen", modelled as `None` for the school type and role.
 */
module LegacyApp {
  import opened Wrappers
  import opened SchoolTypes
  import Text
  import Numerals

  /** A stored message; its role is whatever the profile role was, possibly not chosen. */
  datatype Post = Post(
    id: string, text: string, author: string, role: Option<UserRole>, timestamp: int, channel: ChannelType)

  datatype AppState = AppState(
    schoolType: Option<SchoolType>,
    userRole: Option<UserRole>,
    userName: string,
    className: string,
    activeChannel: ChannelType,
    messageText: string,
    messages: seq<Post>)

  /** The fixed channel tabs, whatever the role. */
  const Channels: seq<ChannelType> := [Ufficiale, Genitori, Urgenti, Assenze]

  lemma ChannelsFixed()
    ensures |Channels| == 4 && CanaleRappresentante !in Channels
    ensures forall c :: c in Channels <==> c != CanaleRappresentante
    ensures forall i, j :: 0 <= i < j < |Channels| ==> Channels[i] != Channels[j]
  {
  }

  /** Initial screen state with the three seeded posts (long texts split into short literals). */
  function InitialState(): (s: AppState)
    ensures s.schoolType == None && s.userRole == None && s.userName == "" && s.className == ""
    ensures s.activeChannel == Ufficiale && s.messageText == "" && |s.messages| == 3
  {
    AppState(None, None, "", "", Ufficiale, "", [
      Post("1", "Benvenuti al nuovo " + "anno scolastico! Vi " + "ricordiamo che domani " + "iniziano le lezioni.",
           "Dirigente Scolastico", Some(Insegnante), 1725958800000, Ufficiale),
      Post("2", "Ciao a tutti! " + "Qualcuno sa se serve " + "comprare i quaderni " + "speciali per " + "matematica?",
           "Marco Rossi", Some(Genitore), 1726215300000, Genitori),
      Post("3", "ATTENZIONE: Domani le " + "lezioni sono sospese " + "per maltempo.",
           "Prof. Bianchi", Some(Insegnante), 1726296300000, Urgenti)
    ])
  }

  /** `isSetupComplete`: all four profile fields are filled in. */
  predicate IsSetupComplete(s: AppState) {
    s.schoolType.Some? && s.userRole.Some? && s.userName != "" && s.className != ""
  }

  /** The communication screen shows the composer only when setup is complete, and then
      the name guard of `handleSendMessage` never fires: any text that is not blank is sent
      under the profile's name and role. */
  lemma SetupAllowsSend(s: AppState, now: int)
    requires IsSetupComplete(s) && !Text.AllWhitespace(s.messageText)
    ensures var r := HandleSendMessage(s, now);
      && |r.messages| == |s.messages| + 1
      && r.messages[..|s.messages|] == s.messages
      && r.messages[|s.messages|].author == s.userName
      && r.messages[|s.messages|].role == s.userRole && s.userRole.Some?
      && r.messageText == ""
  {
    Text.TrimEmptyIffBlank(s.messageText);
  }

  /** `handleSendMessage`: nothing when the trimmed text or the name is empty; otherwise one
      message with the trimmed text, the name, the role and the active channel is appended
      and the composer is cleared. */
  function HandleSendMessage(s: AppState, now: int): (r: AppState)
    ensures Text.Trim(s.messageText) == [] || s.userName == [] ==> r == s
    ensures Text.Trim(s.messageText) != [] && s.userName != [] ==>
      && |r.messages| == |s.messages| + 1
      && r.messages[..|s.messages|] == s.messages
      && r.messages[|s.messages|].text == Text.Trim(s.messageText)
      && r.messages[|s.messages|].author == s.userName
      && r.messages[|s.messages|].role == s.userRole
      && r.messages[|s.messages|].channel == s.activeChannel
      && r.messages[|s.messages|].timestamp == now
      && r.messageText == ""
      && r == s.(messages := r.messages, messageText := "")
  {
    var text := Text.Trim(s.messageText);
    if text == [] || s.userName == [] then s
    else
      s.(messages := s.messages + [Post(Numerals.EncodeInt(now), text, s.userName, s.userRole, now, s.activeChannel)],
         messageText := "")
  }

  /** A blank composer or an empty name leaves messages and composer text as they were. */
  lemma SendRejected(s: AppState, now: int)
    requires Text.AllWhitespace(s.messageText) || s.userName == []
    ensures HandleSendMessage(s, now).messages == s.messages
    ensures HandleSendMessage(s, now).messageText == s.messageText
  {
    Text.TrimEmptyIffBlank(s.messageText);
  }

  /** `getMessagesForChannel`: the messages posted to `c`, in stored order. */
  function MessagesForChannel(ms: seq<Post>, c: ChannelType): (r: seq<Post>)
    ensures |r| <= |ms|
    ensures forall i :: 0 <= i < |r| ==> r[i].channel == c
    ensures forall p :: p in r <==> p in ms && p.channel == c
  {
    if ms == [] then []
    else
      assert forall p :: p in ms <==> p == ms[0] || p in ms[1..];
      (if ms[0].channel == c then [ms[0]] else []) + MessagesForChannel(ms[1..], c)
  }

  /** The filter distributes over concatenation, so stored order is kept. */
  lemma {:induction false} MessagesForChannelAppend(a: seq<Post>, b: seq<Post>, c: ChannelType)
    ensures MessagesForChannel(a + b, c) == MessagesForChannel(a, c) + MessagesForChannel(b, c)
    decreases |a|
  {
    if a != [] {
      assert (a + b)[1..] == a[1..] + b;
      MessagesForChannelAppend(a[1..], b, c);
    } else {
      assert a + b == b;
    }
  }

  /** A successful send adds its message at the end of the active channel's list and leaves
      every other channel's list alone. */
  lemma SendThenQuery(s: AppState, now: int, c: ChannelType)
    requires Text.Trim(s.messageText) != [] && s.userName != []
    ensures var r := HandleSendMessage(s, now);
      MessagesForChannel(r.messages, c)
      == MessagesForChannel(s.messages, c)
         + (if c == s.activeChannel then [r.messages[|s.messages|]] else [])
  {
    var r := HandleSendMessage(s, now);
    var m := r.messages[|s.messages|];
    assert r.messages == s.messages + [m];
    MessagesForChannelAppend(s.messages, [m], c);
    assert [m][1..] == [];
  }
}
