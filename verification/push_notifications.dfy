/**
  src/hooks/usePushNotifications.ts: a permission flag, the history of shown notifications
  (most recent first) and, in place of `setTimeout`, a queue of pending notifications with
  due times driven by an explicit clock.
 */
module PushNotifications {
  import opened Wrappers

  datatype Notification = Notification(
    title: string, body: string, channelId: Option<string>, timestamp: int)

  /** A notification waiting for its timer; `due` is the clock reading it fires at. */
  datatype Pending = Pending(due: int, notification: Notification)

  /** `prompts` counts the "permission required" alerts shown. */
  datatype Notifier = Notifier(
    permissionGranted: bool,
    history: seq<Notification>,
    pending: seq<Pending>,
    clock: int,
    prompts: nat)

  /** On mount: no permission, nothing shown, nothing pending. */
  function Initial(clock: int): (n: Notifier)
    ensures !n.permissionGranted && n.history == [] && n.pending == [] && n.clock == clock
  {
    Notifier(false, [], [], clock, 0)
  }

  /** `requestPermission`: the simulated request always succeeds. */
  function RequestPermission(n: Notifier): (r: Notifier)
    ensures r.permissionGranted
    ensures r.history == n.history && r.pending == n.pending && r.clock == n.clock && r.prompts == n.prompts
  {
    n.(permissionGranted := true)
  }

  /** `showNotification`: the notification goes in front of the history. */
  function Show(n: Notifier, note: Notification): (r: Notifier)
    ensures |r.history| == |n.history| + 1 && r.history[0] == note && r.history[1..] == n.history
    ensures r.permissionGranted == n.permissionGranted && r.pending == n.pending
    ensures r.clock == n.clock && r.prompts == n.prompts
  {
    n.(history := [note] + n.history)
  }

  /** `scheduleLocalNotification`. Without permission only the prompt appears. With it, the
      notification is stamped `now + delay` and shown at once when `delay <= 0`, otherwise
      queued to fire when the clock reaches its timestamp. */
  function Schedule(n: Notifier, title: string, body: string, channelId: Option<string>, delay: int)
    : (r: Notifier)
    ensures !n.permissionGranted ==> r == n.(prompts := n.prompts + 1)
    ensures n.permissionGranted && delay <= 0 ==>
      r == Show(n, Notification(title, body, channelId, n.clock + delay))
    ensures n.permissionGranted && delay > 0 ==>
      && r.history == n.history
      && r.pending == n.pending + [Pending(n.clock + delay, Notification(title, body, channelId, n.clock + delay))]
      && r.permissionGranted && r.clock == n.clock && r.prompts == n.prompts
  {
    if !n.permissionGranted then n.(prompts := n.prompts + 1)
    else
      var note := Notification(title, body, channelId, n.clock + delay);
      if delay > 0 then n.(pending := n.pending + [Pending(n.clock + delay, note)])
      else Show(n, note)
  }

  /** Lets `dt` milliseconds pass without firing anything. */
  function Advance(n: Notifier, dt: nat): (r: Notifier)
    ensures r.clock == n.clock + dt
    ensures r.history == n.history && r.pending == n.pending
    ensures r.permissionGranted == n.permissionGranted && r.prompts == n.prompts
  {
    n.(clock := n.clock + dt)
  }

  /** The timer that fires next: among those due by `clock`, the earliest, and among equally
      early ones the first scheduled. `None` when no timer is due. */
  function EarliestDue(p: seq<Pending>, clock: int): (r: Option<nat>)
    ensures r.Some? ==> r.value < |p| && p[r.value].due <= clock
    ensures r.Some? ==> forall j :: 0 <= j < |p| && p[j].due <= clock ==> p[r.value].due <= p[j].due
    ensures r.Some? ==> forall j :: 0 <= j < r.value ==> p[r.value].due < p[j].due
    ensures r.None? <==> forall j :: 0 <= j < |p| ==> clock < p[j].due
  {
    if p == [] then None
    else
      var rest := EarliestDue(p[1..], clock);
      if p[0].due <= clock && (rest.None? || p[0].due <= p[1 + rest.value].due) then Some(0)
      else if rest.Some? then Some(rest.value + 1)
      else None
  }

  /** Fires the pending notification at index `i`: it leaves the queue and is shown. Timers
      were armed at scheduling time, so the permission is not checked again. */
  function FireAt(n: Notifier, i: nat): (r: Notifier)
    requires i < |n.pending|
    ensures r.pending == n.pending[..i] + n.pending[i + 1..]
    ensures r.history == [n.pending[i].notification] + n.history
    ensures r.permissionGranted == n.permissionGranted && r.clock == n.clock && r.prompts == n.prompts
  {
    Show(n, n.pending[i].notification).(pending := n.pending[..i] + n.pending[i + 1..])
  }

  /** One timer step: fires the next due notification, if any. */
  function Tick(n: Notifier): (r: Notifier)
    ensures (forall j :: 0 <= j < |n.pending| ==> n.clock < n.pending[j].due) ==> r == n
    ensures (exists j :: 0 <= j < |n.pending| && n.pending[j].due <= n.clock) ==>
      && |r.pending| == |n.pending| - 1
      && |r.history| == |n.history| + 1 && r.history[1..] == n.history
      && exists j :: 0 <= j < |n.pending| && n.pending[j].due <= n.clock
                     && r.history[0] == n.pending[j].notification
                     && r.pending == n.pending[..j] + n.pending[j + 1..]
    ensures r.clock == n.clock && r.permissionGranted == n.permissionGranted && r.prompts == n.prompts
    ensures IsSuffix(n.history, r.history)
  {
    match EarliestDue(n.pending, n.clock)
    case Some(i) =>
      assert FireAt(n, i).history[0] == n.pending[i].notification;
      FireAt(n, i)
    case None => n
  }

  /** `a` is what is left of `b` after dropping some notifications from its front. */
  predicate IsSuffix(a: seq<Notification>, b: seq<Notification>) {
    |a| <= |b| && b[|b| - |a|..] == a
  }

  lemma SuffixTrans(a: seq<Notification>, b: seq<Notification>, c: seq<Notification>)
    requires IsSuffix(a, b) && IsSuffix(b, c)
    ensures IsSuffix(a, c)
  {
    assert c[|c| - |a|..] == c[|c| - |b|..][|b| - |a|..];
  }

  /** `t` timer steps in a row. */
  function Ticks(n: Notifier, t: nat): (r: Notifier)
    ensures IsSuffix(n.history, r.history)
    ensures r.clock == n.clock
    decreases t
  {
    if t == 0 then n
    else
      var m := Tick(n);
      var r := Ticks(m, t - 1);
      SuffixTrans(n.history, m.history, r.history);
      r
  }

  /** A timer that is due is shown within as many steps as there are pending timers: each
      step fires one due timer, so it either fires this one or the queue shrinks around it. */
  lemma {:induction false} DueTimerShown(n: Notifier, e: Pending)
    requires e in n.pending && e.due <= n.clock
    ensures e.notification in Ticks(n, |n.pending|).history
    decreases |n.pending|
  {
    var k :| 0 <= k < |n.pending| && n.pending[k] == e;
    assert n.pending[k].due <= n.clock;
    var b := Tick(n);
    var j :| 0 <= j < |n.pending| && n.pending[j].due <= n.clock
             && b.history[0] == n.pending[j].notification
             && b.pending == n.pending[..j] + n.pending[j + 1..];
    var r := Ticks(b, |n.pending| - 1);
    assert Ticks(n, |n.pending|) == r;
    if n.pending[j] == e {
      InHistorySuffix(b.history, r.history, e.notification);
    } else {
      RemovalKeeps(n.pending, j, k);
      DueTimerShown(b, e);
    }
  }

  /** What is at the front of a suffix is in the whole. */
  lemma InHistorySuffix(h: seq<Notification>, r: seq<Notification>, x: Notification)
    requires h != [] && h[0] == x
    requires IsSuffix(h, r)
    ensures x in r
  {
    assert r[|r| - |h|] == x;
  }

  /** Removing the entry at `j` keeps the one at a different index `k`. */
  lemma RemovalKeeps(p: seq<Pending>, j: nat, k: nat)
    requires j < |p| && k < |p| && p[j] != p[k]
    ensures p[k] in p[..j] + p[j + 1..]
  {
    var q := p[..j] + p[j + 1..];
    if k < j {
      assert q[k] == p[k];
    } else {
      assert q[k - 1] == p[k];
    }
  }

  /** `clearNotifications`: empties the history; permission and armed timers stay. */
  function ClearNotifications(n: Notifier): (r: Notifier)
    ensures r.history == []
    ensures r.permissionGranted == n.permissionGranted && r.pending == n.pending
    ensures r.clock == n.clock && r.prompts == n.prompts
  {
    n.(history := [])
  }

  /** A notification scheduled before permission is granted is refused, not queued. */
  lemma ScheduleBeforePermission(clock: int, title: string, body: string, channelId: Option<string>, delay: int)
    ensures var r := Schedule(Initial(clock), title, body, channelId, delay);
      r.history == [] && r.pending == [] && r.prompts == 1
  {
  }

  /** A delayed notification shows nothing now, stays queued, and once its delay has elapsed
      it is shown within as many timer steps as there are pending timers, whatever else is
      queued. */
  lemma DelayedNotificationFires(n: Notifier, title: string, body: string,
                                 channelId: Option<string>, delay: int)
    requires n.permissionGranted && delay > 0
    ensures var s := Schedule(n, title, body, channelId, delay);
      && s.history == n.history
      && Pending(n.clock + delay, Notification(title, body, channelId, n.clock + delay)) in s.pending
    ensures var a := Advance(Schedule(n, title, body, channelId, delay), delay as nat);
      Notification(title, body, channelId, n.clock + delay) in Ticks(a, |n.pending| + 1).history
  {
    var note := Notification(title, body, channelId, n.clock + delay);
    var s := Schedule(n, title, body, channelId, delay);
    var a := Advance(s, delay as nat);
    assert a.pending[|n.pending|] == Pending(n.clock + delay, note);
    DueTimerShown(a, Pending(n.clock + delay, note));
  }

  /** When no earlier-armed timer is due by then, the delayed notification is the very next
      one shown after its delay. */
  lemma {:induction false} DelayedNotificationFiresFirst(n: Notifier, title: string, body: string,
                                                    channelId: Option<string>, delay: int)
    requires n.permissionGranted && delay > 0
    requires forall j :: 0 <= j < |n.pending| ==> n.clock + delay < n.pending[j].due
    ensures Schedule(n, title, body, channelId, delay).history == n.history
    ensures Tick(Advance(Schedule(n, title, body, channelId, delay), delay as nat)).history
         == [Notification(title, body, channelId, n.clock + delay)] + n.history
  {
    var s := Schedule(n, title, body, channelId, delay);
    var a := Advance(s, delay as nat);
    var k := |n.pending|;
    assert a.pending[k].due <= a.clock;
    var i := EarliestDue(a.pending, a.clock);
    assert i == Some(k) by {
      forall j | 0 <= j < k ensures a.clock < a.pending[j].due {
        assert a.pending[j] == n.pending[j];
      }
    }
  }

  /** The four demo notifications of `simulateSchoolNotifications`. */
  function SchoolNotifications(): seq<(string, string, string)> {
    [
      ("\U{1F4E2} Comunicazione Scuola", "Nuova comunicazione dalla segreteria disponibile", "ufficiale"),
      ("\U{1F4AC} Nuovo Messaggio", "Hai ricevuto un nuovo messaggio nella chat genitori", "genitori"),
      ("\U{1F6A8} Comunicazione Urgente", "Attenzione: cambio orario per domani", "urgenti"),
      ("\U{1F4C5} Promemoria", "Ricorda di giustificare l'assenza di ieri", "assenze")
    ]
  }

  /** Schedules `items` in order, the k-th with delay `(first + k) * 2000`. */
  function ScheduleSpaced(n: Notifier, items: seq<(string, string, string)>, first: nat): (r: Notifier)
    ensures r.clock == n.clock && r.permissionGranted == n.permissionGranted
    ensures !n.permissionGranted ==> r == n.(prompts := n.prompts + |items|)
    ensures n.permissionGranted ==> r.prompts == n.prompts && IsSuffix(n.history, r.history)
    decreases |items|
  {
    if items == [] then n
    else
      var (title, body, channel) := items[0];
      ScheduleSpaced(Schedule(n, title, body, Some(channel), first * 2000), items[1..], first + 1)
  }

  /** `simulateSchoolNotifications`: four notifications two seconds apart, the first at once.
      Without permission each of them only raises the prompt. */
  function SimulateSchoolNotifications(n: Notifier): (r: Notifier)
    ensures r.clock == n.clock && r.permissionGranted == n.permissionGranted
    ensures !n.permissionGranted ==> r == n.(prompts := n.prompts + 4)
    ensures n.permissionGranted ==> r.prompts == n.prompts && IsSuffix(n.history, r.history)
  {
    ScheduleSpaced(n, SchoolNotifications(), 0)
  }

  /** With permission the first demo notification is shown at once and the other three are
      queued 2, 4 and 6 seconds out; without it, four prompts and nothing else. */
  lemma SimulateSchoolNotificationsEffect(n: Notifier)
    ensures var r := SimulateSchoolNotifications(n);
      n.permissionGranted ==>
        && r.history == [Notification("\U{1F4E2} Comunicazione Scuola",
                            "Nuova comunicazione dalla segreteria disponibile", Some("ufficiale"), n.clock)]
                        + n.history
        && |r.pending| == |n.pending| + 3
        && r.pending[..|n.pending|] == n.pending
        && r.pending[|n.pending|].due == n.clock + 2000
        && r.pending[|n.pending|].notification.channelId == Some("genitori")
        && r.pending[|n.pending| + 1].due == n.clock + 4000
        && r.pending[|n.pending| + 1].notification.channelId == Some("urgenti")
        && r.pending[|n.pending| + 2].due == n.clock + 6000
        && r.pending[|n.pending| + 2].notification.channelId == Some("assenze")
    ensures var r := SimulateSchoolNotifications(n);
      !n.permissionGranted ==> r == n.(prompts := n.prompts + 4)
  {
    var items := SchoolNotifications();
    assert items[1..][1..][1..][1..] == [];
  }

  /** Some notification for channel `c` is in the history `h`. */
  predicate ShowsChannel(h: seq<Notification>, c: string) {
    exists x :: x in h && x.channelId == Some(c)
  }

  /** With permission, six seconds after `simulateSchoolNotifications` and enough timer steps,
      a notification of each of the four channels has been shown, even with other timers
      still queued from before. */
  lemma SimulateThenWait(n: Notifier)
    requires n.permissionGranted
    ensures var a := Advance(SimulateSchoolNotifications(n), 6000);
      var h := Ticks(a, |n.pending| + 3).history;
      && ShowsChannel(h, "ufficiale") && ShowsChannel(h, "genitori")
      && ShowsChannel(h, "urgenti") && ShowsChannel(h, "assenze")
  {
    var r := SimulateSchoolNotifications(n);
    SimulateSchoolNotificationsEffect(n);
    var a := Advance(r, 6000);
    var h := Ticks(a, |a.pending|).history;
    var k := |n.pending|;
    InHistorySuffix(a.history, h, a.history[0]);
    assert a.history[0].channelId == Some("ufficiale");
    DueTimerShown(a, a.pending[k]);
    assert a.pending[k].notification.channelId == Some("genitori");
    DueTimerShown(a, a.pending[k + 1]);
    assert a.pending[k + 1].notification.channelId == Some("urgenti");
    DueTimerShown(a, a.pending[k + 2]);
    assert a.pending[k + 2].notification.channelId == Some("assenze");
  }
}
