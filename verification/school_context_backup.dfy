/**
  The earlier state container, src/context/SchoolContext.backup.tsx: separate state cells
  with two channel toggles, messages added with caller-supplied author and role, channels
  chosen by the toggles, and per-channel messages sorted by time.
 */
module SchoolContextBackup {
  import opened Wrappers
  import opened SchoolTypes
  import Numerals

  datatype BackupState = BackupState(
    schoolType: Option<SchoolType>,
    userRole: Option<UserRole>,
    userName: Option<string>,
    className: Option<string>,
    chatGenitoriEnabled: bool,
    rappresentanteEnabled: bool,
    messages: seq<Message>)

  /** Everything unset, both toggles on, the seeded messages. */
  function InitialState(): (s: BackupState)
    ensures s.schoolType == None && s.userRole == None && s.userName == None && s.className == None
    ensures s.chatGenitoriEnabled && s.rappresentanteEnabled && s.messages == MockMessages()
  {
    BackupState(None, None, None, None, true, true, MockMessages())
  }

  /** `setSchoolType`; the other setters below follow the same shape. */
  function SetSchoolType(s: BackupState, t: SchoolType): (r: BackupState)
    ensures r.schoolType == Some(t) && r == s.(schoolType := r.schoolType)
  {
    s.(schoolType := Some(t))
  }

  function SetUserRole(s: BackupState, role: UserRole): (r: BackupState)
    ensures r.userRole == Some(role) && r == s.(userRole := r.userRole)
  {
    s.(userRole := Some(role))
  }

  function SetUserName(s: BackupState, name: string): (r: BackupState)
    ensures r.userName == Some(name) && r == s.(userName := r.userName)
  {
    s.(userName := Some(name))
  }

  function SetClassName(s: BackupState, name: string): (r: BackupState)
    ensures r.className == Some(name) && r == s.(className := r.className)
  {
    s.(className := Some(name))
  }

  /** `toggleChatGenitori`: flips the parents-chat toggle and nothing else. */
  function ToggleChatGenitori(s: BackupState): (r: BackupState)
    ensures r.chatGenitoriEnabled == !s.chatGenitoriEnabled
    ensures r == s.(chatGenitoriEnabled := r.chatGenitoriEnabled)
  {
    s.(chatGenitoriEnabled := !s.chatGenitoriEnabled)
  }

  /** `toggleRappresentante`: flips the representative toggle and nothing else. */
  function ToggleRappresentante(s: BackupState): (r: BackupState)
    ensures r.rappresentanteEnabled == !s.rappresentanteEnabled
    ensures r == s.(rappresentanteEnabled := r.rappresentanteEnabled)
  {
    s.(rappresentanteEnabled := !s.rappresentanteEnabled)
  }

  /** Toggling twice restores the state; the two toggles commute. */
  lemma TogglesInvolutive(s: BackupState)
    ensures ToggleChatGenitori(ToggleChatGenitori(s)) == s
    ensures ToggleRappresentante(ToggleRappresentante(s)) == s
    ensures ToggleChatGenitori(ToggleRappresentante(s)) == ToggleRappresentante(ToggleChatGenitori(s))
  {
  }

  /** The caller's part of a message (`Omit<Message, 'id' | 'timestamp'>`). */
  datatype MessageData = MessageData(text: string, author: string, role: UserRole, channel: ChannelType)

  /** `addMessage`: appends one message with the caller's fields, id and time from `now`. */
  function AddMessage(s: BackupState, data: MessageData, now: int): (r: BackupState)
    ensures |r.messages| == |s.messages| + 1 && r.messages[..|s.messages|] == s.messages
    ensures var m := r.messages[|s.messages|];
      m.text == data.text && m.author == data.author && m.role == data.role
      && m.channel == data.channel && m.timestamp == now && Numerals.DecodeInt(m.id) == Some(now)
    ensures r == s.(messages := r.messages)
  {
    Numerals.EncodeIntRoundTrip(now);
    s.(messages := s.messages + [Message(Numerals.EncodeInt(now), data.text, data.author, data.role, now, data.channel)])
  }

  /** `getAvailableChannels`: official, urgent and absences always, then the parents chat and
      the representative channel as their toggles say; the role plays no part. */
  function AvailableChannels(chatGenitoriEnabled: bool, rappresentanteEnabled: bool): (r: seq<ChannelType>)
    ensures |r| >= 3 && r[..3] == [Ufficiale, Urgenti, Assenze]
    ensures Genitori in r <==> chatGenitoriEnabled
    ensures CanaleRappresentante in r <==> rappresentanteEnabled
    ensures chatGenitoriEnabled ==> r[3] == Genitori
    ensures forall i, j :: 0 <= i < j < |r| ==> r[i] != r[j]
  {
    var base := [Ufficiale, Urgenti, Assenze];
    var withChat := if chatGenitoriEnabled then base + [Genitori] else base;
    if rappresentanteEnabled then withChat + [CanaleRappresentante] else withChat
  }

  /** The messages of channel `c`, in stored order. */
  function FilterChannel(ms: seq<Message>, c: ChannelType): (r: seq<Message>)
    ensures forall i :: 0 <= i < |r| ==> r[i].channel == c && r[i] in ms
  {
    if ms == [] then []
    else (if ms[0].channel == c then [ms[0]] else []) + FilterChannel(ms[1..], c)
  }

  /** The filter keeps every copy of every message of the channel and nothing else. */
  lemma {:induction false} FilterChannelMultiset(ms: seq<Message>, c: ChannelType)
    ensures forall m :: multiset(FilterChannel(ms, c))[m] == if m.channel == c then multiset(ms)[m] else 0
  {
    if ms != [] {
      FilterChannelMultiset(ms[1..], c);
      assert ms == [ms[0]] + ms[1..];
    }
  }

  predicate SortedByTime(ms: seq<Message>) {
    forall i, j :: 0 <= i < j < |ms| ==> ms[i].timestamp <= ms[j].timestamp
  }

  /** Inserts `m` before the first later message: among equal times, `m` comes first. */
  function Insert(m: Message, ms: seq<Message>): (r: seq<Message>)
    ensures multiset(r) == multiset(ms) + multiset{m}
    ensures |r| == |ms| + 1
    ensures SortedByTime(ms) ==> SortedByTime(r)
  {
    if ms == [] then [m]
    else if m.timestamp <= ms[0].timestamp then [m] + ms
    else
      assert ms == [ms[0]] + ms[1..];
      var rest := Insert(m, ms[1..]);
      InsertStepSorted(ms[0], m, ms[1..], rest);
      [ms[0]] + rest
  }

  /** The recursive step of `Insert`: putting back a head no later than `m` and than the rest
      of a sorted list keeps it sorted. */
  lemma InsertStepSorted(h: Message, m: Message, tail: seq<Message>, rest: seq<Message>)
    requires h.timestamp < m.timestamp
    requires multiset(rest) == multiset(tail) + multiset{m}
    requires SortedByTime(tail) ==> SortedByTime(rest)
    ensures SortedByTime([h] + tail) ==> SortedByTime([h] + rest)
  {
    if SortedByTime([h] + tail) {
      var ht := [h] + tail;
      assert SortedByTime(tail) by {
        forall i, j | 0 <= i < j < |tail| ensures tail[i].timestamp <= tail[j].timestamp {
          assert tail[i] == ht[i + 1] && tail[j] == ht[j + 1];
        }
      }
      forall i | 0 <= i < |rest| ensures h.timestamp <= rest[i].timestamp {
        assert rest[i] in multiset(rest);
        if rest[i] != m {
          assert rest[i] in multiset(tail);
          var k :| 0 <= k < |tail| && tail[k] == rest[i];
          assert ht[0] == h && ht[k + 1] == rest[i];
        }
      }
      SortedCons(h, rest);
    }
  }

  /** Stable insertion sort on timestamps: `Array.prototype.sort` with the comparator
      `a.timestamp - b.timestamp`. */
  function SortByTime(ms: seq<Message>): (r: seq<Message>)
    ensures SortedByTime(r)
    ensures multiset(r) == multiset(ms)
  {
    if ms == [] then []
    else
      assert ms == [ms[0]] + ms[1..];
      Insert(ms[0], SortByTime(ms[1..]))
  }

  /** Messages already in time order are left in place. */
  lemma {:induction false} SortOfSorted(ms: seq<Message>)
    requires SortedByTime(ms)
    ensures SortByTime(ms) == ms
  {
    if ms != [] {
      SortOfSorted(ms[1..]);
      assert ms == [ms[0]] + ms[1..];
    }
  }

  /** `getMessagesForChannel`: exactly the channel's messages, as a multiset, in
      non-decreasing time order. */
  function MessagesForChannel(s: BackupState, c: ChannelType): (r: seq<Message>)
    ensures SortedByTime(r)
    ensures forall i :: 0 <= i < |r| ==> r[i].channel == c
    ensures forall m :: multiset(r)[m] == if m.channel == c then multiset(s.messages)[m] else 0
  {
    var f := FilterChannel(s.messages, c);
    FilterChannelMultiset(s.messages, c);
    var r := SortByTime(f);
    assert forall i :: 0 <= i < |r| ==> r[i] in multiset(f);
    r
  }

  /** When the stored messages are in time order (as appending with a growing clock keeps
      them), the sort changes nothing and the result is the plain filter. */
  lemma SortedStoreGivesFilter(s: BackupState, c: ChannelType)
    requires SortedByTime(s.messages)
    ensures MessagesForChannel(s, c) == FilterChannel(s.messages, c)
  {
    FilterKeepsSorted(s.messages, c);
    SortOfSorted(FilterChannel(s.messages, c));
  }

  lemma {:induction false} FilterKeepsSorted(ms: seq<Message>, c: ChannelType)
    requires SortedByTime(ms)
    ensures SortedByTime(FilterChannel(ms, c))
  {
    if ms != [] {
      var tail := ms[1..];
      assert SortedByTime(tail) by {
        forall i, j | 0 <= i < j < |tail| ensures tail[i].timestamp <= tail[j].timestamp {
          assert tail[i] == ms[i + 1] && tail[j] == ms[j + 1];
        }
      }
      FilterKeepsSorted(tail, c);
      var rest := FilterChannel(tail, c);
      if ms[0].channel == c {
        var f := [ms[0]] + rest;
        assert FilterChannel(ms, c) == f;
        forall i | 0 <= i < |rest| ensures ms[0].timestamp <= rest[i].timestamp {
          assert rest[i] in tail;
          var k :| 0 <= k < |tail| && tail[k] == rest[i];
          assert ms[1 + k] == rest[i];
        }
        SortedCons(ms[0], rest);
      } else {
        assert FilterChannel(ms, c) == rest;
      }
    }
  }

  lemma SortedCons(m: Message, ms: seq<Message>)
    requires SortedByTime(ms)
    requires forall i :: 0 <= i < |ms| ==> m.timestamp <= ms[i].timestamp
    ensures SortedByTime([m] + ms)
  {
    var f := [m] + ms;
    forall i, j | 0 <= i < j < |f| ensures f[i].timestamp <= f[j].timestamp {
      assert f[j] == ms[j - 1];
      if i > 0 { assert f[i] == ms[i - 1]; }
    }
  }

  /** Appending with a clock that has not gone back keeps the store in time order. */
  lemma AddMessageKeepsSorted(s: BackupState, data: MessageData, now: int)
    requires SortedByTime(s.messages)
    requires forall i :: 0 <= i < |s.messages| ==> s.messages[i].timestamp <= now
    ensures SortedByTime(AddMessage(s, data, now).messages)
  {
  }
}
