/**
  The entities of the school-communication app (src/types/index.ts): the three closed
  enumerations, a posted message, the six settings toggles and the aggregate state.
  Instants are integers counting milliseconds since the epoch.
 */
module SchoolTypes {
  import opened Wrappers

  datatype SchoolType = Asilo | Elementari | Medie | Superiori

  datatype UserRole = Genitore | Insegnante | Rappresentante

  /** `CanaleRappresentante` is the `'rappresentante'` channel (the role shares the literal). */
  datatype ChannelType = Ufficiale | Genitori | Urgenti | Assenze | CanaleRappresentante

  /** The string literal each channel value is in the source (`'ufficiale'`, ...). */
  function ChannelName(c: ChannelType): (s: string)
    ensures |s| > 0
  {
    match c
    case Ufficiale => "ufficiale"
    case Genitori => "genitori"
    case Urgenti => "urgenti"
    case Assenze => "assenze"
    case CanaleRappresentante => "rappresentante"
  }

  datatype Message = Message(
    id: string,
    text: string,
    author: string,
    role: UserRole,
    timestamp: int,
    channel: ChannelType)

  datatype SchoolSettings = SchoolSettings(
    chatGenitoriEnabled: bool,
    rappresentanteEnabled: bool,
    notificationsEnabled: bool,
    darkMode: bool,
    hapticFeedback: bool,
    sounds: bool)

  /** The four profile fields are optional (`undefined` until set). */
  datatype SchoolState = SchoolState(
    schoolType: Option<SchoolType>,
    userRole: Option<UserRole>,
    userName: Option<string>,
    className: Option<string>,
    messages: seq<Message>,
    settings: SchoolSettings)

  /** `Partial<SchoolSettings>`: `None` is a key absent from the payload. */
  datatype SettingsPatch = SettingsPatch(
    chatGenitoriEnabled: Option<bool>,
    rappresentanteEnabled: Option<bool>,
    notificationsEnabled: Option<bool>,
    darkMode: Option<bool>,
    hapticFeedback: Option<bool>,
    sounds: Option<bool>)

  /** `Partial<SchoolState>`: `None` is a key absent from the payload. */
  datatype StatePatch = StatePatch(
    schoolType: Option<SchoolType>,
    userRole: Option<UserRole>,
    userName: Option<string>,
    className: Option<string>,
    messages: Option<seq<Message>>,
    settings: Option<SchoolSettings>)

  /** The five seeded messages both context variants start from (long texts split into short literals). */
  function MockMessages(): (ms: seq<Message>)
    ensures |ms| == 5
  {
    [
      Message("1", "Benvenuti al nuovo " + "anno scolastico! Vi " + "ricordiamo che domani " + "iniziano le lezioni.",
              "Dirigente Scolastico", Insegnante, 1725958800000, Ufficiale),
      Message("2", "Ricordiamo a tutti i " + "genitori che la " + "riunione di classe è " + "fissata per venerdì " + "alle 17:00.",
              "Maestra Elena", Insegnante, 1726151400000, Ufficiale),
      Message("3", "Ciao a tutti! " + "Qualcuno sa se serve " + "comprare i quaderni " + "speciali per " + "matematica?",
              "Marco Rossi", Genitore, 1726215300000, Genitori),
      Message("4", "ATTENZIONE: Domani le " + "lezioni sono sospese " + "per maltempo. Restate " + "a casa!",
              "Prof. Bianchi", Insegnante, 1726296300000, Urgenti),
      Message("5", "Mia figlia Giulia " + "sarà assente domani " + "per visita medica.",
              "Laura Verde", Genitore, 1726428000000, Assenze)
    ]
  }
}
