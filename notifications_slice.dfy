/**
 * The notifications slice of the Redux store: an ordered list of
 * notifications with append, remove-by-id and clear reducers, and the
 * selectors over it. The random id and the creation time that the reducer
 * draws from `Math.random` and `Date.now` are parameters here.
 */
module NotificationsSlice {
  import opened Wrappers
  import Seqs

  datatype NotificationType = Success | Error | Warning | Info

  datatype Notification = Notification(
    id: string,
    kind: NotificationType,
    message: string,
    title: Option<string>,
    autoHideDuration: Option<int>,
    createdAt: int)

  /** What a caller dispatches: a notification without id and creation time. */
  datatype NotificationPayload = NotificationPayload(
    kind: NotificationType,
    message: string,
    title: Option<string>,
    autoHideDuration: Option<int>)

  /** The item `addNotification` stores for `payload`. */
  function FromPayload(payload: NotificationPayload, id: string, createdAt: int): (n: Notification)
    ensures n.kind == payload.kind && n.message == payload.message
    ensures n.title == payload.title && n.autoHideDuration == payload.autoHideDuration
    ensures n.id == id && n.createdAt == createdAt
  {
    Notification(id, payload.kind, payload.message, payload.title, payload.autoHideDuration, createdAt)
  }

  /** The list `removeNotification(id)` leaves: every item whose id differs, in order. */
  function WithoutId(items: seq<Notification>, id: string): seq<Notification> {
    Seqs.Filter(items, (n: Notification) => n.id != id)
  }

  /** The last item of the list, `undefined` (None) when the list is empty. */
  function Latest(items: seq<Notification>): (r: Option<Notification>)
    ensures r.Some? <==> items != []
    ensures r.Some? ==> r.value == items[|items| - 1] && r.value in items
  {
    if items == [] then None else Some(items[|items| - 1])
  }

  class NotificationsState {
    var items: seq<Notification>

    /** The initial state holds no notification. */
    constructor ()
      ensures items == []
    {
      items := [];
    }

    /** `addNotification`: push one item built from the payload at the end. */
    method AddNotification(payload: NotificationPayload, id: string, createdAt: int)
      modifies this
      ensures items == old(items) + [FromPayload(payload, id, createdAt)]
      ensures SelectLatest() == Some(FromPayload(payload, id, createdAt))
    {
      items := items + [FromPayload(payload, id, createdAt)];
    }

    /** `removeNotification`: keep exactly the items whose id differs from `id`. */
    method RemoveNotification(id: string)
      modifies this
      ensures items == WithoutId(old(items), id)
    {
      items := WithoutId(items, id);
    }

    /** `clearAllNotifications`. */
    method ClearAllNotifications()
      modifies this
      ensures items == []
    {
      items := [];
    }

    /** `selectAllNotifications`. */
    function SelectAll(): seq<Notification>
      reads this
    {
      items
    }

    /** `selectLatestNotification`. */
    function SelectLatest(): (r: Option<Notification>)
      reads this
      ensures r == Latest(items)
    {
      Latest(items)
    }
  }

  /**
   * Removing by id drops every item carrying that id and keeps every other item,
   * as often as it occurred and in its original relative order.
   */
  lemma RemoveNotificationSpec(items: seq<Notification>, id: string)
    ensures forall n :: n in WithoutId(items, id) ==> n.id != id
    ensures forall n :: n in items && n.id != id ==>
              multiset(WithoutId(items, id))[n] == multiset(items)[n]
    ensures Seqs.IsSubsequence(WithoutId(items, id), items)
  {
    var p := (n: Notification) => n.id != id;
    forall n | n in items && n.id != id
      ensures multiset(WithoutId(items, id))[n] == multiset(items)[n]
    {
      Seqs.FilterKeepsMatching(items, p, n);
    }
    Seqs.FilterIsSubsequence(items, p);
  }

  /** Removing an id that no item carries leaves the list as it was. */
  lemma RemoveAbsentId(items: seq<Notification>, id: string)
    requires forall n :: n in items ==> n.id != id
    ensures WithoutId(items, id) == items
  {
    Seqs.FilterAll(items, (n: Notification) => n.id != id);
  }

  /** Removing the same id twice is removing it once. */
  lemma RemoveTwice(items: seq<Notification>, id: string)
    ensures WithoutId(WithoutId(items, id), id) == WithoutId(items, id)
  {
    Seqs.FilterIdempotent(items, (n: Notification) => n.id != id);
  }

  /** Adding and then removing the new item's id undoes the add when the id was fresh. */
  lemma RemoveUndoesAdd(items: seq<Notification>, n: Notification)
    requires forall m :: m in items ==> m.id != n.id
    ensures WithoutId(items + [n], n.id) == items
  {
    var p := (m: Notification) => m.id != n.id;
    Seqs.FilterOfConcat(items, [n], p);
    Seqs.FilterAll(items, p);
  }
}
