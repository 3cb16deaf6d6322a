/**
 * The notification context: the in-memory list of notifications and the three
 * operations that change it.
 */
module Notifications {
  import opened Wrappers
  import opened Effects

  /** A notification (`metadata` is not modelled). ISO timestamps are strings. */
  datatype NotificationPayload = NotificationPayload(
    notificationType: string,
    ownerType: string,
    ownerId: string,
    amount: Option<real>,
    payoutDate: Option<string>,
    reference: Option<string>,
    title: string,
    message: string,
    createdAt: string,
    readAt: Option<string>)

  /** The read stamp `markAsRead` gives one entry. */
  function MarkOne(n: NotificationPayload, id: string, nowIso: string): NotificationPayload {
    if n.reference == Some(id) then n.(readAt := Some(nowIso)) else n
  }

  /** `prev.map(notif => notif.reference === id ? { ...notif, readAt: now } : notif)`. */
  function MarkRead(ns: seq<NotificationPayload>, id: string, nowIso: string): (r: seq<NotificationPayload>)
    ensures |r| == |ns|
  {
    if ns == [] then [] else [MarkOne(ns[0], id, nowIso)] + MarkRead(ns[1..], id, nowIso)
  }

  /**
   * Marking keeps length and order and changes only `readAt`, and only on the
   * entries whose reference is `id`.
   */
  lemma {:induction false} MarkReadAt(ns: seq<NotificationPayload>, id: string, nowIso: string, i: nat)
    requires i < |ns|
    ensures ns[i].reference == Some(id) ==> MarkRead(ns, id, nowIso)[i] == ns[i].(readAt := Some(nowIso))
    ensures ns[i].reference != Some(id) ==> MarkRead(ns, id, nowIso)[i] == ns[i]
  {
    if i > 0 {
      MarkReadAt(ns[1..], id, nowIso, i - 1);
    }
  }

  /** An id that no entry references leaves the list as it was. */
  lemma {:induction false} MarkReadNoMatch(ns: seq<NotificationPayload>, id: string, nowIso: string)
    requires forall i :: 0 <= i < |ns| ==> ns[i].reference != Some(id)
    ensures MarkRead(ns, id, nowIso) == ns
  {
    if ns != [] {
      MarkReadNoMatch(ns[1..], id, nowIso);
      assert ns == [ns[0]] + ns[1..];
    }
  }

  /** Marking the same id twice at the same time is marking it once. */
  lemma {:induction false} MarkReadIdempotent(ns: seq<NotificationPayload>, id: string, nowIso: string)
    ensures MarkRead(MarkRead(ns, id, nowIso), id, nowIso) == MarkRead(ns, id, nowIso)
  {
    if ns != [] {
      MarkReadIdempotent(ns[1..], id, nowIso);
      assert MarkRead(ns, id, nowIso)[1..] == MarkRead(ns[1..], id, nowIso);
    }
  }

  /** Marking commutes with a newer notification arriving in front. */
  lemma MarkReadAfterAdd(n: NotificationPayload, ns: seq<NotificationPayload>, id: string, nowIso: string)
    ensures MarkRead([n] + ns, id, nowIso) == [MarkOne(n, id, nowIso)] + MarkRead(ns, id, nowIso)
  {
    assert ([n] + ns)[1..] == ns;
  }

  /** The provider's notification state. */
  class NotificationStore {
    var notifications: seq<NotificationPayload>

    constructor ()
      ensures notifications == []
    {
      notifications := [];
    }

    /** `addNotification`: the newest entry goes first (the browser notification is not modelled). */
    method AddNotification(n: NotificationPayload)
      modifies this
      ensures notifications == [n] + old(notifications)
    {
      notifications := [n] + notifications;
    }

    /**
     * `markAsRead`, given how the POST ended and the clock's ISO string: a
     * rejected request leaves the list unchanged.
     */
    method MarkAsRead(id: string, request: Outcome, nowIso: string)
      modifies this
      ensures request.Done? ==> notifications == MarkRead(old(notifications), id, nowIso)
      ensures request.Threw? ==> notifications == old(notifications)
    {
      if request.Done? {
        notifications := MarkRead(notifications, id, nowIso);
      }
    }

    /** `clearAll`. */
    method ClearAll()
      modifies this
      ensures notifications == []
    {
      notifications := [];
    }
  }
}
