/** The notifications slice (src/store/slices/notifications.slice.ts). The
    five-second timer of a non-error notification is an explicit later step,
    `AutoRemove`; `id` and `now` are the generated UUID and the creation time. */
module NotificationsSlice {
  import opened Wrappers
  import opened StoreTypes

  const InitialNotifications: seq<Notification> := []

  /** The argument of `addNotification`: a notification without id and timestamp. */
  datatype NotificationInput = NotificationInput(kind: NotificationType, title: string, message: string)

  predicate OnlyNotificationsChanged(s: GlobalState, r: GlobalState) {
    AuthOf(r) == AuthOf(s) && TenantOf(r) == TenantOf(s) && UiOf(r) == UiOf(s)
  }

  function NewNotification(input: NotificationInput, id: string, now: int): (n: Notification)
    ensures n.kind == input.kind && n.title == input.title && n.message == input.message
    ensures n.id == id && n.timestamp == now
  {
    Notification(id, input.kind, input.title, input.message, now)
  }

  /** `addNotification`: one entry appended at the end. */
  function AddNotification(s: GlobalState, input: NotificationInput, id: string, now: int): (r: GlobalState)
    ensures |r.notifications| == |s.notifications| + 1
    ensures r.notifications[..|s.notifications|] == s.notifications
    ensures r.notifications[|s.notifications|] == NewNotification(input, id, now)
    ensures OnlyNotificationsChanged(s, r)
  {
    s.(notifications := s.notifications + [NewNotification(input, id, now)])
  }

  /** The removal `addNotification` schedules: its own id, unless it is an error. */
  function ScheduledRemoval(input: NotificationInput, id: string): (r: Option<string>)
    ensures r.Some? <==> input.kind != ErrorNote
    ensures r.Some? ==> r.value == id
  {
    if input.kind != ErrorNote then Some(id) else None
  }

  /** `notifications.filter(n => n.id !== id)`. */
  function Without(ns: seq<Notification>, id: string): (r: seq<Notification>)
    ensures |r| <= |ns|
    ensures forall i :: 0 <= i < |r| ==> r[i].id != id
  {
    if |ns| == 0 then []
    else (if ns[0].id == id then [] else [ns[0]]) + Without(ns[1..], id)
  }

  /** The filter keeps every entry whose id differs, and adds nothing. */
  lemma {:induction false} WithoutKeepsTheOthers(ns: seq<Notification>, id: string)
    ensures forall n :: n in Without(ns, id) <==> n in ns && n.id != id
  {
    if |ns| > 0 {
      WithoutKeepsTheOthers(ns[1..], id);
      assert ns == [ns[0]] + ns[1..];
    }
  }

  /** The filter works piecewise, so the survivors keep their order. */
  lemma {:induction false} WithoutConcat(a: seq<Notification>, b: seq<Notification>, id: string)
    ensures Without(a + b, id) == Without(a, id) + Without(b, id)
  {
    if |a| > 0 {
      WithoutConcat(a[1..], b, id);
      var head := if a[0].id == id then [] else [a[0]];
      assert (a + b)[0] == a[0];
      assert (a + b)[1..] == a[1..] + b;
      calc {
        Without(a + b, id);
        head + Without(a[1..] + b, id);
        head + (Without(a[1..], id) + Without(b, id));
        (head + Without(a[1..], id)) + Without(b, id);
      }
    } else {
      assert a + b == b;
    }
  }

  /** Removing an id no entry carries changes nothing. */
  lemma {:induction false} WithoutAbsent(ns: seq<Notification>, id: string)
    requires forall i :: 0 <= i < |ns| ==> ns[i].id != id
    ensures Without(ns, id) == ns
  {
    if |ns| > 0 {
      WithoutAbsent(ns[1..], id);
      assert ns == [ns[0]] + ns[1..];
    }
  }

  /** Removing twice is removing once. */
  lemma WithoutIdempotent(ns: seq<Notification>, id: string)
    ensures Without(Without(ns, id), id) == Without(ns, id)
  {
    WithoutAbsent(Without(ns, id), id);
  }

  function RemoveNotification(s: GlobalState, id: string): (r: GlobalState)
    ensures r.notifications == Without(s.notifications, id)
    ensures OnlyNotificationsChanged(s, r)
  {
    s.(notifications := Without(s.notifications, id))
  }

  /** The timer callback of a non-error notification: the same filter on the
      list as it is when the timer fires. */
  function AutoRemove(s: GlobalState, id: string): (r: GlobalState)
    ensures r == RemoveNotification(s, id)
  {
    s.(notifications := Without(s.notifications, id))
  }

  function ClearNotifications(s: GlobalState): (r: GlobalState)
    ensures r.notifications == []
    ensures OnlyNotificationsChanged(s, r)
  {
    s.(notifications := [])
  }

  /** A notification with a fresh id, auto-removed after any other entries were
      appended behind it, leaves exactly the other entries in their order. */
  lemma AutoRemovalTakesOnlyItsOwn(before: seq<Notification>, n: Notification, after: seq<Notification>)
    requires forall i :: 0 <= i < |before| ==> before[i].id != n.id
    requires forall i :: 0 <= i < |after| ==> after[i].id != n.id
    ensures Without(before + [n] + after, n.id) == before + after
  {
    var id := n.id;
    WithoutConcat(before + [n], after, id);
    WithoutConcat(before, [n], id);
    WithoutAbsent(before, id);
    WithoutAbsent(after, id);
    assert [n][1..] == [];
    assert Without([n], id) == [];
    assert Without(before + [n], id) == before;
  }

  /** Adding a non-error notification with a fresh id and letting its timer
      fire gives the list back. */
  lemma AddThenAutoRemove(s: GlobalState, input: NotificationInput, id: string, now: int)
    requires input.kind != ErrorNote
    requires forall i :: 0 <= i < |s.notifications| ==> s.notifications[i].id != id
    ensures var added := AddNotification(s, input, id, now);
      ScheduledRemoval(input, id) == Some(id) && AutoRemove(added, id) == s
  {
    AutoRemovalTakesOnlyItsOwn(s.notifications, NewNotification(input, id, now), []);
    assert s.notifications + [NewNotification(input, id, now)] + [] == s.notifications + [NewNotification(input, id, now)];
    assert s.notifications + [] == s.notifications;
  }
}
