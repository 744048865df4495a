/**
  src/hooks/useAsyncStorage.ts: the in-memory key-value store standing in for
  AsyncStorage, the persisted-value hook built on it, and `clearAll`.
 */
module AsyncStorage {
  import opened Wrappers

  /** The mock store: a `Map<string, string>`. */
  type Store = map<string, string>

  const EmptyStore: Store := map[]

  /** `getItem`: `mockStorage.get(key) || null`, so a stored empty string reads as absent. */
  function GetItem(st: Store, key: string): (v: Option<string>)
    ensures v.Some? <==> key in st && st[key] != ""
    ensures v.Some? ==> v.value == st[key]
  {
    if key in st && st[key] != "" then Some(st[key]) else None
  }

  /** `setItem`: binds `key` to `value`, leaving every other key as it was. */
  function SetItem(st: Store, key: string, value: string): (r: Store)
    ensures r.Keys == st.Keys + {key}
    ensures r[key] == value
    ensures forall k :: k in st && k != key ==> r[k] == st[k]
  {
    st[key := value]
  }

  /** `removeItem`: drops `key`, leaving every other key as it was. */
  function RemoveItem(st: Store, key: string): (r: Store)
    ensures r.Keys == st.Keys - {key}
    ensures forall k :: k in r ==> r[k] == st[k]
  {
    st - {key}
  }

  /** A non-empty value written to a key reads back; an empty one reads back as absent. */
  lemma SetThenGet(st: Store, key: string, value: string)
    ensures value != "" ==> GetItem(SetItem(st, key, value), key) == Some(value)
    ensures value == "" ==> GetItem(SetItem(st, key, value), key) == None
  {
  }

  /** Writing one key does not change what another key reads. */
  lemma SetOtherKey(st: Store, key: string, value: string, other: string)
    requires other != key
    ensures GetItem(SetItem(st, key, value), other) == GetItem(st, other)
  {
  }

  /** The last write to a key wins. */
  lemma LastWriteWins(st: Store, key: string, v1: string, v2: string)
    ensures SetItem(SetItem(st, key, v1), key, v2) == SetItem(st, key, v2)
  {
  }

  /** A removed key reads as absent; other keys read as before. */
  lemma RemoveThenGet(st: Store, key: string, other: string)
    ensures GetItem(RemoveItem(st, key), key) == None
    ensures other != key ==> GetItem(RemoveItem(st, key), other) == GetItem(st, other)
  {
  }

  predicate Distinct(keys: seq<string>) {
    forall i, j :: 0 <= i < j < |keys| ==> keys[i] != keys[j]
  }

  /** `getAllKeys`: every stored key exactly once. */
  method GetAllKeys(st: Store) returns (keys: seq<string>)
    ensures forall k :: k in keys <==> k in st
    ensures Distinct(keys)
    ensures |keys| == |st|
  {
    keys := [];
    var rest := st.Keys;
    while rest != {}
      invariant rest <= st.Keys
      invariant forall k :: k in keys <==> k in st && k !in rest
      invariant Distinct(keys)
      invariant |keys| + |rest| == |st.Keys|
      decreases |rest|
    {
      var k :| k in rest;
      keys := keys + [k];
      rest := rest - {k};
    }
    assert st.Keys == set k | k in keys;
  }

  /** `clearAll`: lists the keys and removes each of them, leaving no key behind. */
  method ClearAll(st: Store) returns (r: Store)
    ensures r == EmptyStore
  {
    var keys := GetAllKeys(st);
    r := st;
    var i := 0;
    while i < |keys|
      invariant 0 <= i <= |keys|
      invariant forall k :: k in r ==> k in keys[i..]
      decreases |keys| - i
    {
      r := RemoveItem(r, keys[i]);
      i := i + 1;
    }
    assert r.Keys == {};
  }

  /** The hook's state: the current value, whether the initial read is still pending, and
      the item that read has already taken from the store. `getItem` has no inner `await`,
      so the store is read when the effect starts; only the parse and the state update wait
      for a later microtask. `fetched` is `None` until the read starts. */
  datatype Hook<T> = Hook(value: T, loading: bool, fetched: Option<Option<string>>)

  /** On mount the hook holds the default and is loading; the read has not started. */
  function Mount<T>(default: T): (h: Hook<T>)
    ensures h.value == default && h.loading && h.fetched == None
  {
    Hook(default, true, None)
  }

  /** The end of the initial read: a present item that parses replaces the value; an absent
      item or a parse failure keeps it. Either way loading is over. */
  function Loaded<T>(h: Hook<T>, item: Option<string>, parse: string -> Option<T>): (r: Hook<T>)
    ensures !r.loading
    ensures item.Some? && parse(item.value).Some? ==> r.value == parse(item.value).value
    ensures item.None? || parse(item.value).None? ==> r.value == h.value
  {
    match item
    case Some(text) =>
      (match parse(text)
       case Some(v) => h.(value := v, loading := false)
       case None => h.(loading := false))
    case None => h.(loading := false)
  }

  /** `setValue`: the in-memory value changes first; the write then happens only if the
      value serialises, and a failed write is swallowed. `None` is a serialisation failure. */
  function SetValue<T>(h: Hook<T>, st: Store, key: string, v: T, serialize: T -> Option<string>)
    : (r: (Hook<T>, Store))
    ensures r.0 == h.(value := v)
    ensures serialize(v).Some? ==> r.1 == SetItem(st, key, serialize(v).value)
    ensures serialize(v).None? ==> r.1 == st
  {
    var next := h.(value := v);
    match serialize(v)
    case Some(text) => (next, SetItem(st, key, text))
    case None => (next, st)
  }

  /** What can happen to a mounted hook: the effect starts its read (taking the item from
      the store at once), the read's continuation runs, or the app sets a value (writing
      through to the store). */
  datatype HookEvent<T> = ReadStart | ReadDone | SetTo(v: T)

  /** One event. A `ReadDone` with no read started has nothing to apply. */
  function Step<T>(h: Hook<T>, st: Store, key: string, e: HookEvent<T>,
                   parse: string -> Option<T>, serialize: T -> Option<string>): (r: (Hook<T>, Store))
    ensures e.ReadStart? ==> r == (h.(fetched := Some(GetItem(st, key))), st)
    ensures e.ReadDone? && h.fetched.Some? ==>
      r == (Loaded(h, h.fetched.value, parse).(fetched := None), st)
    ensures e.ReadDone? && h.fetched.None? ==> r == (h, st)
    ensures e.SetTo? ==> r.0.fetched == h.fetched && r == SetValue(h, st, key, e.v, serialize)
  {
    match e
    case ReadStart => (h.(fetched := Some(GetItem(st, key))), st)
    case ReadDone =>
      (match h.fetched
       case Some(item) => (Loaded(h, item, parse).(fetched := None), st)
       case None => (h, st))
    case SetTo(v) => SetValue(h, st, key, v, serialize)
  }

  /** Applies events to the hook and the store it is bound to. */
  function Replay<T>(h: Hook<T>, st: Store, key: string, events: seq<HookEvent<T>>,
                     parse: string -> Option<T>, serialize: T -> Option<string>): (Hook<T>, Store)
    decreases |events|
  {
    if events == [] then (h, st)
    else
      var (h', st') := Step(h, st, key, events[0], parse, serialize);
      Replay(h', st', key, events[1..], parse, serialize)
  }

  /** Whether the events complete a read: a `ReadDone` comes after a read was started
      (`started` says whether one already was). */
  predicate CompletesRead<T>(started: bool, events: seq<HookEvent<T>>)
    decreases |events|
  {
    if events == [] then false
    else match events[0]
      case ReadStart => CompletesRead(true, events[1..])
      case ReadDone => started || CompletesRead(false, events[1..])
      case SetTo(_) => CompletesRead(started, events[1..])
  }

  /** `loading` never goes back to true, and is false once a started read has completed. */
  lemma {:induction false} LoadingMonotone<T>(h: Hook<T>, st: Store, key: string, events: seq<HookEvent<T>>,
                                              parse: string -> Option<T>, serialize: T -> Option<string>)
    ensures !h.loading ==> !Replay(h, st, key, events, parse, serialize).0.loading
    ensures CompletesRead(h.fetched.Some?, events) ==> !Replay(h, st, key, events, parse, serialize).0.loading
    decreases |events|
  {
    if events != [] {
      var (h', st') := Step(h, st, key, events[0], parse, serialize);
      LoadingMonotone(h', st', key, events[1..], parse, serialize);
    }
  }

  /** The order the provider produces on mount: the hook's effect reads the store, the
      provider's save effect then sets a value, and only afterwards the read's continuation
      runs. The value found in the store at the start wins over the one just set when it is
      present and parses; otherwise the set value stays. The store keeps the set value. */
  lemma SetDuringRead<T>(h: Hook<T>, st: Store, key: string, v: T,
                         parse: string -> Option<T>, serialize: T -> Option<string>)
    ensures var r := Replay(h, st, key, [ReadStart, SetTo(v), ReadDone], parse, serialize);
      var item := GetItem(st, key);
      && !r.0.loading && r.0.fetched == None
      && (item.Some? && parse(item.value).Some? ==> r.0.value == parse(item.value).value)
      && (item.None? || parse(item.value).None? ==> r.0.value == v)
      && r.1 == SetValue(h, st, key, v, serialize).1
  {
    var (h1, st1) := Step(h, st, key, ReadStart, parse, serialize);
    var (h2, st2) := Step(h1, st1, key, SetTo(v), parse, serialize);
    var (h3, st3) := Step(h2, st2, key, ReadDone, parse, serialize);
    assert Replay(h2, st2, key, [ReadDone], parse, serialize) == (h3, st3);
    assert Replay(h1, st1, key, [SetTo(v), ReadDone], parse, serialize) == (h3, st3);
    assert Replay(h, st, key, [ReadStart, SetTo(v), ReadDone], parse, serialize) == (h3, st3);
  }

  /** When the read completes before the set, the set value stays, and with a serialisation
      that parses back a later read of the store gives it again. */
  lemma SetAfterRead<T>(h: Hook<T>, st: Store, key: string, v: T,
                        parse: string -> Option<T>, serialize: T -> Option<string>)
    requires forall x: T :: serialize(x).Some? ==> parse(serialize(x).value) == Some(x)
    requires serialize(v).Some?
    ensures var r := Replay(h, st, key, [ReadStart, ReadDone, SetTo(v)], parse, serialize);
      && r.0.value == v && !r.0.loading
      && var again := GetItem(r.1, key);
         again.Some? ==> parse(again.value) == Some(v)
  {
    var (h1, st1) := Step(h, st, key, ReadStart, parse, serialize);
    var (h2, st2) := Step(h1, st1, key, ReadDone, parse, serialize);
    var (h3, st3) := Step(h2, st2, key, SetTo(v), parse, serialize);
    assert Replay(h2, st2, key, [SetTo(v)], parse, serialize) == (h3, st3);
    assert Replay(h1, st1, key, [ReadDone, SetTo(v)], parse, serialize) == (h3, st3);
    assert Replay(h, st, key, [ReadStart, ReadDone, SetTo(v)], parse, serialize) == (h3, st3);
    match GetItem(st3, key)
    case Some(text) =>
      assert text == serialize(v).value;
    case None =>
  }
}
