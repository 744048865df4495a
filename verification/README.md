# School messaging app — state core in Dafny

This project models the client-side core of a demo school–family messaging app. Users
set a profile: school type, role (`genitore` parent, `insegnante` teacher,
`rappresentante` class representative), name and class. They then read and post messages
in role-gated channels (`ufficiale`, `genitori`, `urgenti`, `assenze`, `rappresentante`).
The app also has six boolean settings and mock local notifications.

The model covers:

- **`SchoolContext`**: the reducer over the seven actions (four profile setters,
  `ADD_MESSAGE`, `UPDATE_SETTINGS`, `LOAD_STATE`); the derived queries (channels by role,
  messages by channel); the provider's `addMessage` with the follow-up notification it
  arranges; and the save/rehydrate path between the state and its persisted blob.
- **`CommunicationScreen`**: the per-channel write table keyed on role, the send guard,
  and `formatMessages`.
- **`AsyncStorage`**: the mock key-value store as a `map<string, string>`, including its
  `|| null` quirk. Also the persisted-value hook as a state machine over its value, its
  loading flag and the item its initial read took from the store, and `clearAll`.
- **`PushNotifications`**: a permission flag, a most-recent-first history, and a queue of
  pending notifications with due times. An explicit clock (`Advance`) and a timer step
  (`Tick`) stand in for `setTimeout`.
- **Three older variants, each kept in its own module because they disagree with the main
  core**:
  - `SchoolContextBackup`: channels chosen by toggles, and per-channel messages sorted by
    time.
  - `CommunicationScreenBackup`: a write row for the representative channel, and an
    access gate.
  - `LegacyApp` (App.js): a setup check, a send guard, and four fixed channels.
- **Helpers**: `Wrappers` (optional values), `Text` (JavaScript `trim`, with the
  ECMAScript whitespace set) and `Numerals` (decimal rendering of integers, with its
  inverse).

Instants are integer milliseconds. The clock reading ("now") is always a parameter.

Notes on the source:

- The reducer handles seven action kinds.
- `LOAD_STATE` replaces the whole message list and the whole settings record. So a load
  can remove messages, and settings are not merged key by key. `RunKeepsMessages`
  therefore holds only for traces without a load.
- A notification is shown immediately for any delay `<= 0`.
- Permission is a single boolean that the simulated request always sets. There is no
  separate requesting or denied state.

## Model

| member | source | states |
|---|---|---|
| SchoolTypes.MockMessages | src/context/SchoolContext.tsx:7-48 | the five seeded messages |
| SchoolContext.InitialState | src/context/SchoolContext.tsx:50-64 | school type and role unset, empty name and class, the seeded messages |
| SchoolContext.AuthorOf | src/context/SchoolContext.tsx:89 | the author is the profile name, or `Utente` when the name is unset or empty; never empty |
| SchoolContext.RoleOf | src/context/SchoolContext.tsx:90 | the author role is the profile role, or `genitore` when unset |
| SchoolContext.NewMessage | src/context/SchoolContext.tsx:86-93 | the new message carries the payload text and channel, the fallback author and role, timestamp `now`, and an id that decodes back to `now` |
| SchoolContext.MergeSettings | src/context/SchoolContext.tsx:98-102 | each settings key present in the patch takes the patch value; every absent key keeps its old value |
| SchoolContext.MergeState | src/context/SchoolContext.tsx:103-104 | shallow merge: each field present in the payload replaces the old one, absent fields are kept |
| SchoolContext.Reduce | src/context/SchoolContext.tsx:75-108 | each setter overwrites exactly its field; ADD_MESSAGE appends exactly one message at the end, earlier messages, profile and settings unchanged; UPDATE_SETTINGS changes only settings; LOAD_STATE is the shallow merge |
| SchoolContext.UpdateSettingsIdempotent | src/context/SchoolContext.tsx:98-102 | applying the same settings patch twice equals applying it once |
| SchoolContext.UpdateSettingsCompose | src/context/SchoolContext.tsx:98-102 | two settings updates equal one update with the key-wise later-wins patch |
| SchoolContext.LoadStateIdempotent | src/context/SchoolContext.tsx:103-104 | loading the same payload twice equals loading it once |
| SchoolContext.ProfileSettersCommute | src/context/SchoolContext.tsx:77-84 | any two of the four profile setters commute when they write different fields; of two setters of the same field the later one wins |
| SchoolContext.RunKeepsMessages | src/context/SchoolContext.tsx:75-108 | over any trace without LOAD_STATE the old messages stay a prefix, and the list grows by one per ADD_MESSAGE |
| SchoolContext.RunKeepsProfileSet | src/context/SchoolContext.tsx:75-108 | no action resets a set profile field to undefined |
| SchoolContext.AvailableChannels | src/context/SchoolContext.tsx:194-206 | starts `ufficiale`, `assenze`; has `genitori` iff the role is parent or representative; has `urgenti` iff teacher; never `rappresentante`; no duplicates |
| SchoolContext.InstantRoundTrip | src/context/SchoolContext.tsx:190 | an instant's text form parses back to the same instant |
| SchoolContext.MessagesForChannel | src/context/SchoolContext.tsx:184-192 | at most one entry per stored message; the lemmas below characterise it completely |
| SchoolContext.MessagesForChannelAppend | src/context/SchoolContext.tsx:184-192 | the channel query distributes over concatenation, so stored order is kept |
| SchoolContext.MessagesForChannelSingle | src/context/SchoolContext.tsx:184-192 | one message contributes its text, author and timestamp text iff its channel matches |
| SchoolContext.MessagesForChannelCount | src/context/SchoolContext.tsx:184-192 | the number of entries equals the number of stored messages in the channel |
| SchoolContext.MessagesForChannelSound | src/context/SchoolContext.tsx:184-192 | every entry comes from a stored message of that channel |
| SchoolContext.AddMessageQuery | src/context/SchoolContext.tsx:85-97 | after ADD_MESSAGE to c, c's query gains exactly the new entry at its end; other channels' queries are unchanged |
| SchoolContext.TeacherUrgentScenario | src/context/SchoolContext.tsx:77-97 | a teacher named `Prof. Bianchi` posting to `urgenti` yields a message with that author and role; `urgenti` gains exactly its entry and every other channel's query is unchanged |
| SchoolContext.NotificationBody | src/context/SchoolContext.tsx:172 | the body is the message when it has at most 50 chars, else its first 50 chars followed by `...` |
| SchoolContext.NotificationBodyPrefix | src/context/SchoolContext.tsx:172 | the body is at most 53 chars and begins with the message's first (up to 50) chars |
| SchoolContext.ProviderAddMessage | src/context/SchoolContext.tsx:164-178 | dispatches ADD_MESSAGE; a notification (truncated body, the channel, delay 1000 after 2000 ms) is requested iff notifications are enabled |
| SchoolContext.Save | src/context/SchoolContext.tsx:137-146 | the saved blob always carries the messages and the settings |
| SchoolContext.Rehydrate | src/context/SchoolContext.tsx:103-134 | a blob with no keys is ignored; otherwise the messages (the seeded ones when the blob has none) and the settings come from the blob, each profile field present in the blob replaces the current one, and absent ones stay |
| SchoolContext.SaveRehydrate | src/context/SchoolContext.tsx:122-146 | rehydrating a saved state restores messages, settings and every profile field it had set; a state's own blob restores it exactly |
| Text.Trim | src/screens/CommunicationScreen.tsx:71 | the result is the slice of the input between whitespace-only ends; it neither starts nor ends with whitespace |
| Text.TrimEmptyIffBlank | src/screens/CommunicationScreen.tsx:71 | the trimmed text is empty iff the input is all whitespace |
| Text.TrimIdempotent | src/screens/CommunicationScreen.tsx:72 | trimming trimmed text changes nothing |
| CommunicationScreen.CanWrite | src/screens/CommunicationScreen.tsx:32-68 | `ufficiale` and `urgenti` are writable iff teacher; `genitori` iff parent or representative; `assenze` always, even with no role; `rappresentante` (no table row) never |
| CommunicationScreen.WritableIsAvailable | src/screens/CommunicationScreen.tsx:32-57 | every channel a role may write is among its available channels |
| CommunicationScreen.HandleSendMessage | src/screens/CommunicationScreen.tsx:70-75 | dispatches iff the trimmed text is non-empty and the channel is writable; then sends the trimmed text and clears the composer; otherwise nothing changes |
| CommunicationScreen.HandleSendRejects | src/screens/CommunicationScreen.tsx:70-75 | blank text or a non-writable channel changes neither state nor composer |
| CommunicationScreen.HandleSendAppends | src/screens/CommunicationScreen.tsx:70-75 | a valid send appends exactly one message, already trimmed, to the active channel and empties the composer |
| CommunicationScreen.FormatMessages | src/screens/CommunicationScreen.tsx:85-93 | same length and order; the i-th id is the timestamp text, `-` and i; `isOwn` iff the sender equals the profile name |
| CommunicationScreen.RowIdsDistinct | src/screens/CommunicationScreen.tsx:87 | row ids at different positions differ, whatever the timestamps |
| CommunicationScreen.FormatAfterQuery | src/screens/CommunicationScreen.tsx:85-93 | formatting the channel query gives every row a valid timestamp and pairwise distinct ids |
| AsyncStorage.GetItem | src/hooks/useAsyncStorage.ts:8-10 | present iff the key is stored with a non-empty value, which is then returned |
| AsyncStorage.SetItem | src/hooks/useAsyncStorage.ts:11-13 | binds the key, every other key unchanged |
| AsyncStorage.RemoveItem | src/hooks/useAsyncStorage.ts:14-16 | drops the key, every other key unchanged |
| AsyncStorage.SetThenGet | src/hooks/useAsyncStorage.ts:8-13 | a non-empty value reads back; an empty value reads back as null |
| AsyncStorage.SetOtherKey | src/hooks/useAsyncStorage.ts:11-13 | writing one key does not change another key's read |
| AsyncStorage.LastWriteWins | src/hooks/useAsyncStorage.ts:11-13 | the second write to a key replaces the first |
| AsyncStorage.RemoveThenGet | src/hooks/useAsyncStorage.ts:14-16 | a removed key reads null; other keys read as before |
| AsyncStorage.GetAllKeys | src/hooks/useAsyncStorage.ts:17-19 | exactly the stored keys, each once |
| AsyncStorage.ClearAll | src/hooks/useAsyncStorage.ts:59-66 | the store ends with no keys |
| AsyncStorage.Mount | src/hooks/useAsyncStorage.ts:26-27 | the hook starts with the default value, loading |
| AsyncStorage.Loaded | src/hooks/useAsyncStorage.ts:29-44 | loading ends; the value becomes the parsed item when an item is present and parses, else it is kept |
| AsyncStorage.SetValue | src/hooks/useAsyncStorage.ts:46-53 | the in-memory value is updated regardless; the store is written only when serialisation succeeds, and a failure is swallowed |
| AsyncStorage.Step | src/hooks/useAsyncStorage.ts:8-53 | starting the read takes the item from the store at once; the read's continuation applies that item, not the store's current content; a set writes through |
| AsyncStorage.LoadingMonotone | src/hooks/useAsyncStorage.ts:27-44 | loading never returns to true, and it is false once a started read has completed |
| AsyncStorage.SetDuringRead | src/hooks/useAsyncStorage.ts:29-53 | a value set after the read started but before it completes is overwritten by the item found at the start when that item is present and parses, and kept otherwise; the store holds the set value |
| AsyncStorage.SetAfterRead | src/hooks/useAsyncStorage.ts:29-53 | a value set after the read completed stays, and with a parse that inverts serialisation the store reads back as it |
| PushNotifications.Initial | src/hooks/usePushNotifications.ts:14-15 | permission false, empty history, nothing pending |
| PushNotifications.RequestPermission | src/hooks/usePushNotifications.ts:22-39 | permission becomes true, nothing else changes |
| PushNotifications.Show | src/hooks/usePushNotifications.ts:72-74 | the notification lands at index 0 and older entries shift unchanged |
| PushNotifications.Schedule | src/hooks/usePushNotifications.ts:41-70 | without permission only a prompt; with permission the notification is stamped now+delay with title, body and channel unchanged; it is shown at once when delay <= 0, else queued at its due time |
| PushNotifications.Advance | src/hooks/usePushNotifications.ts:63-66 | time passes, nothing fires |
| PushNotifications.EarliestDue | src/hooks/usePushNotifications.ts:63-66 | selects the earliest due timer (the first scheduled among ties), or none when nothing is due |
| PushNotifications.FireAt | src/hooks/usePushNotifications.ts:63-66 | a fired timer leaves the queue and its notification goes in front of the history |
| PushNotifications.Tick | src/hooks/usePushNotifications.ts:63-66 | nothing changes while no timer is due; otherwise exactly one due timer leaves the queue and its notification is prepended |
| PushNotifications.Ticks | src/hooks/usePushNotifications.ts:63-66 | timer steps only add to the front of the history and never move the clock |
| PushNotifications.DueTimerShown | src/hooks/usePushNotifications.ts:63-66 | a due timer is shown within as many timer steps as there are pending timers |
| PushNotifications.ClearNotifications | src/hooks/usePushNotifications.ts:91-93 | empties the history; permission and pending timers stay |
| PushNotifications.ScheduleBeforePermission | src/hooks/usePushNotifications.ts:47-53 | scheduling before permission adds nothing to history or queue |
| PushNotifications.DelayedNotificationFires | src/hooks/usePushNotifications.ts:55-73 | a delayed notification adds nothing now and stays queued; once its delay has elapsed it is shown within as many timer steps as there are pending timers, whatever else is queued |
| PushNotifications.DelayedNotificationFiresFirst | src/hooks/usePushNotifications.ts:55-73 | when no earlier-armed timer is due by then, it is the very next notification shown after its delay |
| PushNotifications.SimulateSchoolNotifications | src/hooks/usePushNotifications.ts:95-127 | without permission only four prompts; with it the history only grows at the front; clock and permission stay |
| PushNotifications.SimulateSchoolNotificationsEffect | src/hooks/usePushNotifications.ts:95-127 | with permission: the `ufficiale` notice is shown now, and `genitori`, `urgenti`, `assenze` are queued at +2000, +4000, +6000; without permission: four prompts only |
| PushNotifications.SimulateThenWait | src/hooks/usePushNotifications.ts:95-127 | with permission, six seconds later and after enough timer steps a notification of each of the four channels has been shown, whatever was queued before |
| SchoolContextBackup.InitialState | src/context/SchoolContext.backup.tsx:58-64 | profile unset, both toggles on, the seeded messages |
| SchoolContextBackup.SetSchoolType | src/context/SchoolContext.backup.tsx:77-79 | sets the school type only |
| SchoolContextBackup.SetUserRole | src/context/SchoolContext.backup.tsx:81-83 | sets the role only |
| SchoolContextBackup.SetUserName | src/context/SchoolContext.backup.tsx:85-87 | sets the name only |
| SchoolContextBackup.SetClassName | src/context/SchoolContext.backup.tsx:89-91 | sets the class only |
| SchoolContextBackup.ToggleChatGenitori | src/context/SchoolContext.backup.tsx:93-95 | flips only the parents-chat toggle |
| SchoolContextBackup.ToggleRappresentante | src/context/SchoolContext.backup.tsx:97-99 | flips only the representative toggle |
| SchoolContextBackup.TogglesInvolutive | src/context/SchoolContext.backup.tsx:93-99 | toggling twice restores the state; the two toggles commute |
| SchoolContextBackup.AddMessage | src/context/SchoolContext.backup.tsx:101-108 | appends exactly one message with the caller's text, author, role and channel at time now; earlier messages unchanged |
| SchoolContextBackup.AvailableChannels | src/context/SchoolContext.backup.tsx:116-128 | starts `ufficiale`, `urgenti`, `assenze`; `genitori` iff chat enabled; `rappresentante` iff its toggle is on; no duplicates; no role input |
| SchoolContextBackup.FilterChannel | src/context/SchoolContext.backup.tsx:110-112 | keeps only stored messages of the channel |
| SchoolContextBackup.FilterChannelMultiset | src/context/SchoolContext.backup.tsx:110-112 | the filter keeps every copy of each message of the channel, and nothing else |
| SchoolContextBackup.Insert | src/context/SchoolContext.backup.tsx:113 | inserting adds exactly one element and keeps time order |
| SchoolContextBackup.SortByTime | src/context/SchoolContext.backup.tsx:113 | the output is a permutation in non-decreasing time order |
| SchoolContextBackup.SortOfSorted | src/context/SchoolContext.backup.tsx:113 | already ordered input is returned unchanged |
| SchoolContextBackup.MessagesForChannel | src/context/SchoolContext.backup.tsx:110-114 | the same multiset as the channel's stored messages, in non-decreasing time order |
| SchoolContextBackup.FilterKeepsSorted | src/context/SchoolContext.backup.tsx:110-112 | filtering a time-ordered list keeps it ordered |
| SchoolContextBackup.SortedStoreGivesFilter | src/context/SchoolContext.backup.tsx:110-114 | when the store is time-ordered, the query is the plain filter in stored order |
| SchoolContextBackup.AddMessageKeepsSorted | src/context/SchoolContext.backup.tsx:101-108 | appending at a time no earlier than any stored message keeps the store ordered |
| CommunicationScreenBackup.CanWrite | src/screens/CommunicationScreen.backup.tsx:28-59 | `ufficiale`/`urgenti` iff teacher; `genitori` iff parent or representative; `assenze` always; `rappresentante` iff representative |
| CommunicationScreenBackup.CanAccessChannel | src/screens/CommunicationScreen.backup.tsx:76-81 | false while school type or role is unset; otherwise iff the channel is available |
| CommunicationScreenBackup.HandleSendMessage | src/screens/CommunicationScreen.backup.tsx:61-74 | a no-op when the trimmed text or the name is empty; otherwise adds the trimmed text with the name, role and active channel, and clears the composer |
| CommunicationScreenBackup.ComposerSendStaysWritable | src/screens/CommunicationScreen.backup.tsx:172-193 | a send from the composer stores only into a writable channel, under the profile's name and role |
| CommunicationScreenBackup.WritableButNotAccessible | src/screens/CommunicationScreen.backup.tsx:28-81 | a representative can write to a representative channel they cannot open when its toggle is off |
| CommunicationScreenBackup.CanAccessChannelAsImported | src/screens/CommunicationScreen.backup.tsx:11-81 | with the main context the file imports: false until type and role are set, then `ufficiale` and `assenze` always, `genitori` for parent or representative, `urgenti` for teacher, nothing else |
| CommunicationScreenBackup.RepresentativeChannelClosedAsImported | src/screens/CommunicationScreen.backup.tsx:11-81 | with the main context the representative channel never opens, although a representative may write to it |
| LegacyApp.ChannelsFixed | App.js:62-67 | exactly `ufficiale`, `genitori`, `urgenti`, `assenze`; no `rappresentante`; independent of role |
| LegacyApp.InitialState | App.js:15-47 | empty profile, `ufficiale` active, empty composer, three seeded messages |
| LegacyApp.IsSetupComplete | App.js:89-91 | setup is complete iff school type and role are set and name and class are non-empty |
| LegacyApp.SetupAllowsSend | App.js:69-91 | once setup is complete (the only state that shows the composer), any non-blank text is sent: one message under the profile's name and role is appended and the composer clears |
| LegacyApp.HandleSendMessage | App.js:69-83 | a no-op when the trimmed text or the name is empty; otherwise appends one message with trimmed text, name, role and active channel, prior messages unchanged, and clears the composer |
| LegacyApp.SendRejected | App.js:70 | blank text or an empty name leaves messages and composer text unchanged |
| LegacyApp.MessagesForChannel | App.js:85-87 | exactly the messages of the channel |
| LegacyApp.MessagesForChannelAppend | App.js:85-87 | the filter distributes over concatenation, so stored order is kept |
| LegacyApp.SendThenQuery | App.js:69-87 | a send adds its message at the end of the active channel's list; other channels are unchanged |

## Left out

- Screen layout, styles, the Button/Card/Input/ChannelSelector/MessageList visuals, navigation and app registration: presentation only.
- The random unread counts and the `99+` badge: presentation, and random.
- `useHapticFeedback`, `dimensions`, `SettingsScreen` and `SchoolSetupScreen`: logging stubs, floating-point sizing, and thin forwarders to the reducer actions modelled here.
- `getStorageSize`: it counts bytes through `Blob`.
- `Alert.alert` and `console.warn`/`console.log`. Only the permission prompt is kept, as the `prompts` counter. The alert on every shown notification and `handleNotificationPress` are not modelled.
- Notification ids (`Date.now()` and `Math.random()`) are not modelled: they are random. Message ids are the decimal rendering of `now`, and their uniqueness is not claimed, because the code does not guarantee it.
- `Date.now()` for the id and `new Date()` for the timestamp are read as one `now`. The code reads the clock twice.
- JSON encoding is abstract. The hook takes `serialize`/`parse` as parameters, and the provider's persisted blob is a `StatePatch` holding the messages themselves. The ISO-8601 format is not modelled: instants are rendered as decimal milliseconds (`InstantText`/`ParseInstant`), and their round trip is proved.
- The seeded messages' local-time date strings are read as UTC.
- React effect scheduling is modelled only for the hook's mount, as an explicit event order (`SetDuringRead`: the read starts, the provider's first save sets a value, then the read completes). The save effect after every later change, the load effect after every save, re-render ordering and stale closures are not modelled. `ProviderAddMessage` returns its delayed notification as a request; whether permission holds when it fires is up to whoever schedules it.
- `setTimeout` is replaced by due times, `Advance` and `Tick`. The provider's outer 2000 ms wait is carried in the request (`startDelay`), not queued.
- String lengths count Unicode scalar values, while JavaScript counts UTF-16 code units. So a `substring(0, 50)` that splits a surrogate pair is not modelled.
- AsyncStorage.GetAllKeys: the keys come in no particular order. A JavaScript `Map` yields them in insertion order.
- The mock store never fails. A failed read behaves like a parse failure (`Loaded` keeps the value), and a failed write is `serialize` returning `None`.
- A settings or state payload key that is present with the value `undefined` is not modelled. The spread would copy that `undefined`, but the model treats the key as absent.
- CommunicationScreenBackup.HandleSendMessage: with the role unset, it stores nothing. The code would store a message whose role is `undefined`. The screen shows the setup prompt instead of the composer in that state, so the handler is not reachable then.
- The 500-character input limit and the disabled send button: presentation. The handlers re-check the text.
- The App.js profile setters and tab switching are not modelled separately: they are bare `useState` setters. The backup screen imports the main context, but its object-shaped `addMessage` call matches only the backup context's signature, so `CommunicationScreenBackup` pairs it with the backup context and its toggle-driven channel list. `CanAccessChannelAsImported` also models the gate with the main context's role-based list, where `rappresentante` is never available.
