/**
  The earlier messaging screen, src/screens/CommunicationScreen.backup.tsx, paired with the
  earlier state container whose `addMessage` and toggle-driven channel list it calls: a
  write table that covers the representative channel, an access gate, and a send handler
  that checks the composer text and the profile name.
 */
module CommunicationScreenBackup {
  import opened Wrappers
  import opened SchoolTypes
  import opened SchoolContextBackup
  import Text
  import SchoolContext

  /** The `canWrite` column of this screen's `channelInfo`, which has a row per channel. */
  function CanWrite(role: Option<UserRole>, c: ChannelType): (w: bool)
    ensures c == Ufficiale || c == Urgenti ==> (w <==> role == Some(Insegnante))
    ensures c == Genitori ==> (w <==> role == Some(Genitore) || role == Some(UserRole.Rappresentante))
    ensures c == Assenze ==> w
    ensures c == CanaleRappresentante ==> (w <==> role == Some(UserRole.Rappresentante))
  {
    match c
    case Ufficiale => role == Some(Insegnante)
    case Genitori => role == Some(Genitore) || role == Some(UserRole.Rappresentante)
    case Urgenti => role == Some(Insegnante)
    case Assenze => true
    case CanaleRappresentante => role == Some(UserRole.Rappresentante)
  }

  /** `canAccessChannel`: nothing before school type and role are set, then exactly the
      channels the toggles make available. */
  function CanAccessChannel(s: BackupState, c: ChannelType): (ok: bool)
    ensures s.schoolType.None? || s.userRole.None? ==> !ok
    ensures s.schoolType.Some? && s.userRole.Some? ==>
      (ok <==> c in AvailableChannels(s.chatGenitoriEnabled, s.rappresentanteEnabled))
  {
    if s.schoolType.None? || s.userRole.None? then false
    else c in AvailableChannels(s.chatGenitoriEnabled, s.rappresentanteEnabled)
  }

  /** The screen renders the composer only once school type and role are set (otherwise it
      shows the setup prompt) and only for a channel the role may write. */
  predicate ComposerShown(s: BackupState, active: ChannelType) {
    s.schoolType.Some? && s.userRole.Some? && CanWrite(s.userRole, active)
  }

  datatype Composer = Composer(activeChannel: ChannelType, messageText: string)

  /** `handleSendMessage`: nothing when the trimmed text or the profile name is empty;
      otherwise the trimmed text is added with the profile's name and role to the active
      channel and the composer is cleared. The handler is reachable only from the
      composer, so the role is set whenever it runs. */
  function HandleSendMessage(s: BackupState, ui: Composer, now: int): (out: (BackupState, Composer))
    ensures var text := Text.Trim(ui.messageText);
      text == [] || s.userName.None? || s.userName == Some([]) || s.userRole.None? ==> out == (s, ui)
    ensures var text := Text.Trim(ui.messageText);
      text != [] && s.userName.Some? && s.userName.value != [] && s.userRole.Some? ==>
        && out.0 == AddMessage(s, MessageData(text, s.userName.value, s.userRole.value, ui.activeChannel), now)
        && out.1 == ui.(messageText := "")
  {
    var text := Text.Trim(ui.messageText);
    if text == [] || s.userName.None? || s.userName.value == [] then (s, ui)
    else match s.userRole
      case None => (s, ui)
      case Some(role) =>
        (AddMessage(s, MessageData(text, s.userName.value, role, ui.activeChannel), now),
         ui.(messageText := ""))
  }

  /** A send made from the composer stores a message only in a channel the role may write,
      authored by the profile name with the profile role. */
  lemma ComposerSendStaysWritable(s: BackupState, ui: Composer, now: int)
    requires ComposerShown(s, ui.activeChannel)
    ensures var r := HandleSendMessage(s, ui, now).0;
      r != s ==>
        && |r.messages| == |s.messages| + 1
        && CanWrite(s.userRole, r.messages[|s.messages|].channel)
        && Some(r.messages[|s.messages|].author) == s.userName
        && Some(r.messages[|s.messages|].role) == s.userRole
  {
  }

  /** The representative can write to the representative channel yet, with its toggle off,
      cannot open it: the write table and the access gate disagree there. */
  lemma WritableButNotAccessible(s: BackupState)
    requires s.schoolType.Some? && s.userRole == Some(UserRole.Rappresentante) && !s.rappresentanteEnabled
    ensures CanWrite(s.userRole, CanaleRappresentante)
    ensures !CanAccessChannel(s, CanaleRappresentante)
  {
  }

  /** `canAccessChannel` as the file's import wires it: `getAvailableChannels` then comes
      from the main context, whose list depends on the role alone. */
  function CanAccessChannelAsImported(schoolType: Option<SchoolType>, role: Option<UserRole>, c: ChannelType)
    : (ok: bool)
    ensures ok <==> (schoolType.Some? && role.Some? && (
                     || c == Ufficiale || c == Assenze
                     || (c == Genitori && (role == Some(Genitore) || role == Some(UserRole.Rappresentante)))
                     || (c == Urgenti && role == Some(Insegnante))))
  {
    if schoolType.None? || role.None? then false
    else
      var channels := SchoolContext.AvailableChannels(role);
      assert Ufficiale in channels && Assenze in channels;
      c in channels
  }

  /** Wired to the main context, the representative channel never opens, although the write
      table lets a representative write to it. */
  lemma RepresentativeChannelClosedAsImported(schoolType: Option<SchoolType>, role: Option<UserRole>)
    ensures !CanAccessChannelAsImported(schoolType, role, CanaleRappresentante)
    ensures CanWrite(Some(UserRole.Rappresentante), CanaleRappresentante)
  {
  }
}
