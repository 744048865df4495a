/**
  The state container of src/context/SchoolContext.tsx: the reducer over the seven
  actions, the derived queries (channels by role, messages by channel), the provider's
  `addMessage` with its follow-up notification, and the save/rehydrate path.
 */
module SchoolContext {
  import opened Wrappers
  import opened SchoolTypes
  import Numerals

  const InitialSettings := SchoolSettings(
    chatGenitoriEnabled := true,
    rappresentanteEnabled := false,
    notificationsEnabled := true,
    darkMode := false,
    hapticFeedback := true,
    sounds := true)

  /** No school type or role yet, empty name and class, the seeded messages. */
  function InitialState(): (s: SchoolState)
    ensures s.schoolType == None && s.userRole == None
    ensures s.userName == Some("") && s.className == Some("")
    ensures s.messages == MockMessages()
  {
    SchoolState(None, None, Some(""), Some(""), MockMessages(), InitialSettings)
  }

  /** The closed action set. `AddMessage` carries the clock reading taken when it is reduced. */
  datatype Action =
    | SetSchoolType(schoolType: SchoolType)
    | SetUserRole(role: UserRole)
    | SetUserName(name: string)
    | SetClassName(name: string)
    | AddMessage(channel: ChannelType, text: string, now: int)
    | UpdateSettings(settingsPatch: SettingsPatch)
    | LoadState(statePatch: StatePatch)

  /** `state.userName || 'Utente'`: an unset or empty name falls back to the literal. */
  function AuthorOf(s: SchoolState): (a: string)
    ensures s.userName.Some? && s.userName.value != [] ==> a == s.userName.value
    ensures s.userName == None || s.userName == Some([]) ==> a == "Utente"
    ensures a != []
  {
    match s.userName
    case Some(n) => if n != [] then n else "Utente"
    case None => "Utente"
  }

  /** `state.userRole || 'genitore'`. */
  function RoleOf(s: SchoolState): (r: UserRole)
    ensures s.userRole.Some? ==> r == s.userRole.value
    ensures s.userRole.None? ==> r == Genitore
  {
    s.userRole.GetOr(Genitore)
  }

  /** The message `ADD_MESSAGE` appends: id is `Date.now().toString()`, timestamp `now`. */
  function NewMessage(s: SchoolState, channel: ChannelType, text: string, now: int): (m: Message)
    ensures m.text == text && m.channel == channel && m.timestamp == now
    ensures m.author == AuthorOf(s) && m.role == RoleOf(s)
    ensures Numerals.DecodeInt(m.id) == Some(now)
  {
    Numerals.EncodeIntRoundTrip(now);
    Message(Numerals.EncodeInt(now), text, AuthorOf(s), RoleOf(s), now, channel)
  }

  /** `{ ...settings, ...patch }`: every key present in the patch wins, the others are kept. */
  function MergeSettings(s: SchoolSettings, p: SettingsPatch): (r: SchoolSettings)
    ensures p.chatGenitoriEnabled.Some? ==> r.chatGenitoriEnabled == p.chatGenitoriEnabled.value
    ensures p.chatGenitoriEnabled.None? ==> r.chatGenitoriEnabled == s.chatGenitoriEnabled
    ensures p.rappresentanteEnabled.Some? ==> r.rappresentanteEnabled == p.rappresentanteEnabled.value
    ensures p.rappresentanteEnabled.None? ==> r.rappresentanteEnabled == s.rappresentanteEnabled
    ensures p.notificationsEnabled.Some? ==> r.notificationsEnabled == p.notificationsEnabled.value
    ensures p.notificationsEnabled.None? ==> r.notificationsEnabled == s.notificationsEnabled
    ensures p.darkMode.Some? ==> r.darkMode == p.darkMode.value
    ensures p.darkMode.None? ==> r.darkMode == s.darkMode
    ensures p.hapticFeedback.Some? ==> r.hapticFeedback == p.hapticFeedback.value
    ensures p.hapticFeedback.None? ==> r.hapticFeedback == s.hapticFeedback
    ensures p.sounds.Some? ==> r.sounds == p.sounds.value
    ensures p.sounds.None? ==> r.sounds == s.sounds
  {
    SchoolSettings(
      p.chatGenitoriEnabled.GetOr(s.chatGenitoriEnabled),
      p.rappresentanteEnabled.GetOr(s.rappresentanteEnabled),
      p.notificationsEnabled.GetOr(s.notificationsEnabled),
      p.darkMode.GetOr(s.darkMode),
      p.hapticFeedback.GetOr(s.hapticFeedback),
      p.sounds.GetOr(s.sounds))
  }

  /** `{ ...state, ...patch }`: a shallow merge; `settings` and `messages` are replaced whole. */
  function MergeState(s: SchoolState, p: StatePatch): (r: SchoolState)
    ensures p.schoolType.Some? ==> r.schoolType == p.schoolType
    ensures p.schoolType.None? ==> r.schoolType == s.schoolType
    ensures p.userRole.Some? ==> r.userRole == p.userRole
    ensures p.userRole.None? ==> r.userRole == s.userRole
    ensures p.userName.Some? ==> r.userName == p.userName
    ensures p.userName.None? ==> r.userName == s.userName
    ensures p.className.Some? ==> r.className == p.className
    ensures p.className.None? ==> r.className == s.className
    ensures p.messages.Some? ==> r.messages == p.messages.value
    ensures p.messages.None? ==> r.messages == s.messages
    ensures p.settings.Some? ==> r.settings == p.settings.value
    ensures p.settings.None? ==> r.settings == s.settings
  {
    SchoolState(
      if p.schoolType.Some? then p.schoolType else s.schoolType,
      if p.userRole.Some? then p.userRole else s.userRole,
      if p.userName.Some? then p.userName else s.userName,
      if p.className.Some? then p.className else s.className,
      p.messages.GetOr(s.messages),
      p.settings.GetOr(s.settings))
  }

  /** `schoolReducer`. Each setter overwrites its one field; `AddMessage` appends exactly one
      message; `UpdateSettings` touches only settings; `LoadState` merges. */
  function Reduce(s: SchoolState, a: Action): (r: SchoolState)
    ensures a.SetSchoolType? ==> (
      r.schoolType == Some(a.schoolType)
      && r.userRole == s.userRole && r.userName == s.userName && r.className == s.className
      && r.messages == s.messages && r.settings == s.settings)
    ensures a.SetUserRole? ==> (
      r.userRole == Some(a.role)
      && r.schoolType == s.schoolType && r.userName == s.userName && r.className == s.className
      && r.messages == s.messages && r.settings == s.settings)
    ensures a.SetUserName? ==> (
      r.userName == Some(a.name)
      && r.schoolType == s.schoolType && r.userRole == s.userRole && r.className == s.className
      && r.messages == s.messages && r.settings == s.settings)
    ensures a.SetClassName? ==> (
      r.className == Some(a.name)
      && r.schoolType == s.schoolType && r.userRole == s.userRole && r.userName == s.userName
      && r.messages == s.messages && r.settings == s.settings)
    ensures a.AddMessage? ==>
      && |r.messages| == |s.messages| + 1
      && r.messages[..|s.messages|] == s.messages
      && r.messages[|s.messages|].text == a.text
      && r.messages[|s.messages|].channel == a.channel
      && r.messages[|s.messages|].author == AuthorOf(s)
      && r.messages[|s.messages|].role == RoleOf(s)
      && r.messages[|s.messages|].timestamp == a.now
      && r.schoolType == s.schoolType && r.userRole == s.userRole
      && r.userName == s.userName && r.className == s.className && r.settings == s.settings
    ensures a.UpdateSettings? ==> (
      r.settings == MergeSettings(s.settings, a.settingsPatch)
      && r.schoolType == s.schoolType && r.userRole == s.userRole && r.userName == s.userName
      && r.className == s.className && r.messages == s.messages)
    ensures a.LoadState? ==> r == MergeState(s, a.statePatch)
  {
    match a
    case SetSchoolType(t) => s.(schoolType := Some(t))
    case SetUserRole(role) => s.(userRole := Some(role))
    case SetUserName(n) => s.(userName := Some(n))
    case SetClassName(n) => s.(className := Some(n))
    case AddMessage(c, text, now) => s.(messages := s.messages + [NewMessage(s, c, text, now)])
    case UpdateSettings(p) => s.(settings := MergeSettings(s.settings, p))
    case LoadState(p) => MergeState(s, p)
  }

  /** Dispatching the actions one after the other. */
  function Run(s: SchoolState, actions: seq<Action>): SchoolState
    decreases |actions|
  {
    if actions == [] then s else Run(Reduce(s, actions[0]), actions[1..])
  }

  /** The same settings patch applied twice has the effect of applying it once. */
  lemma UpdateSettingsIdempotent(s: SchoolState, p: SettingsPatch)
    ensures Reduce(Reduce(s, UpdateSettings(p)), UpdateSettings(p)) == Reduce(s, UpdateSettings(p))
  {
  }

  /** A later settings patch wins key by key over an earlier one. */
  function ThenPatch(p: SettingsPatch, q: SettingsPatch): SettingsPatch {
    SettingsPatch(
      if q.chatGenitoriEnabled.Some? then q.chatGenitoriEnabled else p.chatGenitoriEnabled,
      if q.rappresentanteEnabled.Some? then q.rappresentanteEnabled else p.rappresentanteEnabled,
      if q.notificationsEnabled.Some? then q.notificationsEnabled else p.notificationsEnabled,
      if q.darkMode.Some? then q.darkMode else p.darkMode,
      if q.hapticFeedback.Some? then q.hapticFeedback else p.hapticFeedback,
      if q.sounds.Some? then q.sounds else p.sounds)
  }

  /** Two settings updates in a row equal one update with the combined patch. */
  lemma UpdateSettingsCompose(s: SchoolState, p: SettingsPatch, q: SettingsPatch)
    ensures Reduce(Reduce(s, UpdateSettings(p)), UpdateSettings(q))
         == Reduce(s, UpdateSettings(ThenPatch(p, q)))
  {
  }

  /** Loading the same payload twice gives the state loading it once gives. */
  lemma LoadStateIdempotent(s: SchoolState, p: StatePatch)
    ensures Reduce(Reduce(s, LoadState(p)), LoadState(p)) == Reduce(s, LoadState(p))
  {
  }

  /** The four profile setters `SET_SCHOOL_TYPE`, `SET_USER_ROLE`, `SET_USER_NAME`, `SET_CLASS_NAME`. */
  predicate IsProfileSetter(a: Action) {
    a.SetSchoolType? || a.SetUserRole? || a.SetUserName? || a.SetClassName?
  }

  /** Which profile field a setter writes: 0 school type, 1 role, 2 name, 3 class. */
  function ProfileField(a: Action): nat
    requires IsProfileSetter(a)
  {
    match a
    case SetSchoolType(_) => 0
    case SetUserRole(_) => 1
    case SetUserName(_) => 2
    case SetClassName(_) => 3
  }

  /** Any two setters of distinct profile fields commute, and of two setters of the same
      field the later one wins. */
  lemma ProfileSettersCommute(s: SchoolState, a: Action, b: Action)
    requires IsProfileSetter(a) && IsProfileSetter(b)
    ensures ProfileField(a) != ProfileField(b) ==> Reduce(Reduce(s, a), b) == Reduce(Reduce(s, b), a)
    ensures ProfileField(a) == ProfileField(b) ==> Reduce(Reduce(s, a), b) == Reduce(s, b)
  {
  }

  predicate IsLoad(a: Action) {
    a.LoadState?
  }

  /** How many `AddMessage` actions a trace holds. */
  function AddCount(actions: seq<Action>): nat {
    if actions == [] then 0
    else (if actions[0].AddMessage? then 1 else 0) + AddCount(actions[1..])
  }

  /** Without a `LoadState`, no action removes or rewrites a message: the old list stays a
      prefix and grows by one per `AddMessage`. */
  lemma {:induction false} RunKeepsMessages(s: SchoolState, actions: seq<Action>)
    requires forall i :: 0 <= i < |actions| ==> !IsLoad(actions[i])
    ensures |Run(s, actions).messages| == |s.messages| + AddCount(actions)
    ensures Run(s, actions).messages[..|s.messages|] == s.messages
    decreases |actions|
  {
    if actions != [] {
      var s1 := Reduce(s, actions[0]);
      RunKeepsMessages(s1, actions[1..]);
      var final := Run(s1, actions[1..]).messages;
      assert final[..|s.messages|] == final[..|s1.messages|][..|s.messages|];
    }
  }

  /** No action sets a profile field back to `undefined`. */
  lemma {:induction false} RunKeepsProfileSet(s: SchoolState, actions: seq<Action>)
    ensures s.schoolType.Some? ==> Run(s, actions).schoolType.Some?
    ensures s.userRole.Some? ==> Run(s, actions).userRole.Some?
    ensures s.userName.Some? ==> Run(s, actions).userName.Some?
    ensures s.className.Some? ==> Run(s, actions).className.Some?
    decreases |actions|
  {
    if actions != [] {
      RunKeepsProfileSet(Reduce(s, actions[0]), actions[1..]);
    }
  }

  /** `getAvailableChannels`: official and absences always, in that order, then the parents
      chat for parents and representatives, then urgent for teachers. */
  function AvailableChannels(role: Option<UserRole>): (r: seq<ChannelType>)
    ensures |r| >= 2 && r[0] == Ufficiale && r[1] == Assenze
    ensures Genitori in r <==> role == Some(Genitore) || role == Some(UserRole.Rappresentante)
    ensures Urgenti in r <==> role == Some(Insegnante)
    ensures CanaleRappresentante !in r
    ensures forall i, j :: 0 <= i < j < |r| ==> r[i] != r[j]
  {
    var base := [Ufficiale, Assenze];
    var withChat := if role == Some(Genitore) || role == Some(UserRole.Rappresentante) then base + [Genitori] else base;
    if role == Some(Insegnante) then withChat + [Urgenti] else withChat
  }

  /** What `getMessagesForChannel` returns per message: text, author, ISO-style timestamp. */
  datatype ChannelEntry = ChannelEntry(message: string, sender: string, timestamp: string)

  /** The text form of an instant (`toISOString`), here its decimal millisecond count. */
  function InstantText(t: int): string {
    Numerals.EncodeInt(t)
  }

  /** Reading an instant back (`new Date(text)`); `None` is an invalid date. */
  function ParseInstant(s: string): Option<int> {
    Numerals.DecodeInt(s)
  }

  lemma InstantRoundTrip(t: int)
    ensures ParseInstant(InstantText(t)) == Some(t)
  {
    Numerals.EncodeIntRoundTrip(t);
  }

  function Entry(m: Message): ChannelEntry {
    ChannelEntry(m.text, m.author, InstantText(m.timestamp))
  }

  /** `getMessagesForChannel`: the entries of the messages posted to `c`, in stored order. */
  function MessagesForChannel(ms: seq<Message>, c: ChannelType): (r: seq<ChannelEntry>)
    ensures |r| <= |ms|
  {
    if ms == [] then []
    else MessagesForChannel(ms[..|ms| - 1], c)
         + (if ms[|ms| - 1].channel == c then [Entry(ms[|ms| - 1])] else [])
  }

  /** The query distributes over concatenation: stored order is kept and every message
      contributes on its own. With the single-message case this defines it completely. */
  lemma {:induction false} MessagesForChannelAppend(a: seq<Message>, b: seq<Message>, c: ChannelType)
    ensures MessagesForChannel(a + b, c) == MessagesForChannel(a, c) + MessagesForChannel(b, c)
    decreases |b|
  {
    if b == [] {
      assert a + b == a;
    } else {
      var b' := b[..|b| - 1];
      assert (a + b)[..|a + b| - 1] == a + b';
      MessagesForChannelAppend(a, b', c);
    }
  }

  lemma MessagesForChannelSingle(m: Message, c: ChannelType)
    ensures MessagesForChannel([m], c) == if m.channel == c then [Entry(m)] else []
  {
    assert [m][..0] == [];
  }

  function Channels(ms: seq<Message>): seq<ChannelType> {
    seq(|ms|, i requires 0 <= i < |ms| => ms[i].channel)
  }

  /** One entry per message of the channel: the count is the channel's multiplicity. */
  lemma {:induction false} MessagesForChannelCount(ms: seq<Message>, c: ChannelType)
    ensures |MessagesForChannel(ms, c)| == multiset(Channels(ms))[c]
    decreases |ms|
  {
    if ms != [] {
      var init := ms[..|ms| - 1];
      MessagesForChannelCount(init, c);
      assert Channels(ms) == Channels(init) + [ms[|ms| - 1].channel];
    }
  }

  /** An entry is in the result only if a message of that channel produced it. */
  lemma {:induction false} MessagesForChannelSound(ms: seq<Message>, c: ChannelType, e: ChannelEntry)
    requires e in MessagesForChannel(ms, c)
    ensures exists i :: 0 <= i < |ms| && ms[i].channel == c && Entry(ms[i]) == e
    decreases |ms|
  {
    var init := ms[..|ms| - 1];
    if e in MessagesForChannel(init, c) {
      MessagesForChannelSound(init, c, e);
      var i :| 0 <= i < |init| && init[i].channel == c && Entry(init[i]) == e;
      assert ms[i] == init[i];
    } else {
      assert ms[|ms| - 1].channel == c && Entry(ms[|ms| - 1]) == e;
    }
  }

  /** After `ADD_MESSAGE` to `c`, the query for `c` gains exactly the new entry at its end and
      every other channel's query is unchanged. */
  lemma AddMessageQuery(s: SchoolState, c: ChannelType, text: string, now: int, d: ChannelType)
    ensures MessagesForChannel(Reduce(s, AddMessage(c, text, now)).messages, d)
         == MessagesForChannel(s.messages, d)
            + (if d == c then [ChannelEntry(text, AuthorOf(s), InstantText(now))] else [])
  {
    var m := NewMessage(s, c, text, now);
    MessagesForChannelAppend(s.messages, [m], d);
    MessagesForChannelSingle(m, d);
  }

  /** The body of the follow-up notification: the message when it has at most 50
      characters, otherwise its first 50 characters and an ellipsis. */
  function NotificationBody(message: string): (body: string)
    ensures |message| <= 50 ==> body == message
    ensures |message| > 50 ==> |body| == 53 && body[..50] == message[..50] && body[50..] == "..."
  {
    if |message| <= 50 then message else message[..50] + "..."
  }

  /** The body is never longer than 53 characters and always starts like the message. */
  lemma NotificationBodyPrefix(message: string)
    ensures |NotificationBody(message)| <= 53
    ensures var k := if |message| < 50 then |message| else 50;
            NotificationBody(message)[..k] == message[..k]
  {
  }

  /** The `scheduleLocalNotification` call `addMessage` arranges, `startDelay` ms later. */
  datatype NotificationRequest = NotificationRequest(
    title: string, body: string, channelId: string, delay: int, startDelay: int)

  /** The provider's `addMessage`: dispatch, then, when notifications are enabled, arrange
      a notification 2000 ms later that itself waits 1000 ms. */
  function ProviderAddMessage(s: SchoolState, channel: ChannelType, text: string, now: int)
    : (out: (SchoolState, Option<NotificationRequest>))
    ensures out.0 == Reduce(s, AddMessage(channel, text, now))
    ensures out.1.Some? <==> s.settings.notificationsEnabled
    ensures out.1.Some? ==>
      && out.1.value.body == NotificationBody(text)
      && out.1.value.channelId == ChannelName(channel)
      && out.1.value.title == "\U{1F4AC} Nuovo messaggio in " + ChannelName(channel)
      && out.1.value.delay == 1000 && out.1.value.startDelay == 2000
  {
    var next := Reduce(s, AddMessage(channel, text, now));
    if s.settings.notificationsEnabled then
      (next, Some(NotificationRequest("\U{1F4AC} Nuovo messaggio in " + ChannelName(channel),
                                      NotificationBody(text), ChannelName(channel), 1000, 2000)))
    else (next, None)
  }

  /** The blob the provider persists: JSON drops `undefined` profile fields, everything else
      is written (timestamps as text, decoded again on load; the encoding is abstracted). */
  function Save(s: SchoolState): (blob: StatePatch)
    ensures blob.messages == Some(s.messages) && blob.settings == Some(s.settings)
  {
    StatePatch(s.schoolType, s.userRole, s.userName, s.className, Some(s.messages), Some(s.settings))
  }

  predicate IsEmptyPatch(p: StatePatch) {
    && p.schoolType.None? && p.userRole.None? && p.userName.None? && p.className.None?
    && p.messages.None? && p.settings.None?
  }

  /** Startup rehydration: a blob with no keys is ignored; otherwise it is loaded, with the
      seeded messages standing in for a missing message list. */
  function Rehydrate(s: SchoolState, blob: StatePatch): (r: SchoolState)
    ensures IsEmptyPatch(blob) ==> r == s
    ensures !IsEmptyPatch(blob) ==> r.messages == blob.messages.GetOr(MockMessages())
    ensures !IsEmptyPatch(blob) ==> r.settings == blob.settings.GetOr(s.settings)
    ensures !IsEmptyPatch(blob) ==> r.schoolType == (if blob.schoolType.Some? then blob.schoolType else s.schoolType)
    ensures !IsEmptyPatch(blob) ==> r.userRole == (if blob.userRole.Some? then blob.userRole else s.userRole)
    ensures !IsEmptyPatch(blob) ==> r.userName == (if blob.userName.Some? then blob.userName else s.userName)
    ensures !IsEmptyPatch(blob) ==> r.className == (if blob.className.Some? then blob.className else s.className)
  {
    if IsEmptyPatch(blob) then s
    else Reduce(s, LoadState(blob.(messages := Some(blob.messages.GetOr(MockMessages())))))
  }

  /** Saving and rehydrating restores every field the saved state had set: messages and
      settings always, profile fields unless they were `undefined`, in which case the
      current value stays. Rehydrating a state's own blob changes nothing. */
  lemma SaveRehydrate(t: SchoolState, s: SchoolState)
    ensures Rehydrate(t, Save(s)).messages == s.messages
    ensures Rehydrate(t, Save(s)).settings == s.settings
    ensures Rehydrate(t, Save(s)).schoolType == (if s.schoolType.Some? then s.schoolType else t.schoolType)
    ensures Rehydrate(t, Save(s)).userRole == (if s.userRole.Some? then s.userRole else t.userRole)
    ensures Rehydrate(t, Save(s)).userName == (if s.userName.Some? then s.userName else t.userName)
    ensures Rehydrate(t, Save(s)).className == (if s.className.Some? then s.className else t.className)
    ensures Rehydrate(s, Save(s)) == s
  {
  }

  /** A teacher posting an urgent message: the message carries the profile's name and role,
      the urgent channel gains exactly its entry and every other channel is unchanged. */
  lemma TeacherUrgentScenario(s: SchoolState)
    ensures var acts := [SetUserRole(Insegnante), SetUserName("Prof. Bianchi"),
                         AddMessage(Urgenti, "Scuola chiusa domani", 0)];
      var r := Run(s, acts);
      && r.messages[|r.messages| - 1] == Message("0", "Scuola chiusa domani", "Prof. Bianchi", Insegnante, 0, Urgenti)
      && MessagesForChannel(r.messages, Urgenti)
         == MessagesForChannel(s.messages, Urgenti) + [ChannelEntry("Scuola chiusa domani", "Prof. Bianchi", "0")]
      && forall d :: d != Urgenti ==> MessagesForChannel(r.messages, d) == MessagesForChannel(s.messages, d)
  {
    var acts := [SetUserRole(Insegnante), SetUserName("Prof. Bianchi"),
                 AddMessage(Urgenti, "Scuola chiusa domani", 0)];
    var s2 := Reduce(Reduce(s, SetUserRole(Insegnante)), SetUserName("Prof. Bianchi"));
    var s3 := Reduce(s2, AddMessage(Urgenti, "Scuola chiusa domani", 0));
    assert acts[1..][1..][1..] == [];
    assert Run(s, acts) == s3;
    assert Numerals.EncodeInt(0) == "0";
    AddMessageQuery(s2, Urgenti, "Scuola chiusa domani", 0, Urgenti);
    forall d | d != Urgenti
      ensures MessagesForChannel(s3.messages, d) == MessagesForChannel(s.messages, d)
    {
      AddMessageQuery(s2, Urgenti, "Scuola chiusa domani", 0, d);
    }
  }
}
