/**
 * The tax notification bell of src/components/Notification.tsx: the latest
 * notifications, the unread badge, marking one as read, and opening the
 * dropdown.
 *
 * Every item of the dropdown can be clicked, read or not, and each click
 * that the server accepts lowers the badge by one (never below zero). The
 * badge therefore stays equal to the number of unread notifications only
 * when the clicked one was unread; `MarkAsRead` states both outcomes.
 */
module Notification {
  import opened Common

  datatype TaxNotification = TaxNotification(
    id: int,
    orderId: string,
    orderAmount: int,
    taxAmount: int,
    createdAt: int,
    read: bool)

  predicate IsUnread(n: TaxNotification)
  {
    !n.read
  }

  /** `data.filter((item) => !item.read).length`. */
  function Unread(ns: seq<TaxNotification>): nat
  {
    Count(ns, IsUnread)
  }

  /** The unread notifications with a given id. */
  function UnreadWithId(id: int): TaxNotification -> bool
  {
    (n: TaxNotification) => n.id == id && !n.read
  }

  /** `notif.id === id ? { ...notif, read: true } : notif`. */
  function MarkOne(n: TaxNotification, id: int): TaxNotification
  {
    if n.id == id then n.(read := true) else n
  }

  /** `prevNotifications.map(...)`: the notifications with that id become read, the others stay as they were. */
  function MarkRead(ns: seq<TaxNotification>, id: int): (r: seq<TaxNotification>)
    ensures |r| == |ns|
    ensures forall i :: 0 <= i < |ns| ==> r[i] == if ns[i].id == id then ns[i].(read := true) else ns[i]
  {
    if ns == [] then [] else [MarkOne(ns[0], id)] + MarkRead(ns[1..], id)
  }

  /** Marking the same notification read twice is marking it once. */
  lemma MarkReadIdempotent(ns: seq<TaxNotification>, id: int)
    ensures MarkRead(MarkRead(ns, id), id) == MarkRead(ns, id)
  {
  }

  /** Marking lowers the number of unread notifications by exactly the unread ones with that id. */
  lemma {:induction false} UnreadAfterMark(ns: seq<TaxNotification>, id: int)
    ensures Unread(MarkRead(ns, id)) + Count(ns, UnreadWithId(id)) == Unread(ns)
  {
    if ns != [] {
      var r := MarkRead(ns, id);
      UnreadAfterMark(ns[1..], id);
      assert r[0] == MarkOne(ns[0], id) && r[1..] == MarkRead(ns[1..], id);
    }
  }

  class NotificationBell {
    var notifications: seq<TaxNotification>
    var showDropdown: bool
    var unreadCount: int

    /** No notifications, the dropdown closed, a zero badge. */
    constructor ()
      ensures notifications == [] && !showDropdown && unreadCount == 0
      ensures Valid() && Consistent()
    {
      notifications := [];
      showDropdown := false;
      unreadCount := 0;
    }

    /** The badge is never negative. */
    predicate Valid()
      reads this
    {
      unreadCount >= 0
    }

    /** The badge shows the number of unread notifications. */
    predicate Consistent()
      reads this
    {
      unreadCount == Unread(notifications)
    }

    /**
     * `fetchTaxNotifications`: returned rows replace the list and set the
     * badge to their unread count; a failed fetch, or one that returns no
     * data, changes nothing.
     */
    method Fetch(result: Fetched<TaxNotification>)
      requires Valid()
      modifies this
      ensures Valid()
      ensures result.Returned? && result.data.Some? ==> notifications == result.data.value && Consistent()
      ensures !(result.Returned? && result.data.Some?) ==> notifications == old(notifications) && unreadCount == old(unreadCount)
      ensures showDropdown == old(showDropdown)
    {
      if result.Returned? && result.data.Some? {
        notifications := result.data.value;
        unreadCount := Unread(notifications);
      }
    }

    /**
     * `markAsRead`: once the server accepts the update, the notifications
     * with that id become read and the badge drops by one, but not below
     * zero. A failed update changes nothing. From a consistent badge, the
     * badge stays consistent when exactly one unread notification had the
     * id, and goes wrong when none did and the badge was not zero.
     */
    method MarkAsRead(id: int, updateOk: bool)
      requires Valid()
      modifies this
      ensures Valid()
      ensures updateOk ==> notifications == MarkRead(old(notifications), id)
      ensures updateOk ==> unreadCount == if old(unreadCount) - 1 < 0 then 0 else old(unreadCount) - 1
      ensures !updateOk ==> notifications == old(notifications) && unreadCount == old(unreadCount)
      ensures updateOk && old(Consistent()) && Count(old(notifications), UnreadWithId(id)) == 1 ==> Consistent()
      ensures updateOk && old(Consistent()) && Count(old(notifications), UnreadWithId(id)) == 0 && old(unreadCount) > 0 ==> !Consistent()
      ensures showDropdown == old(showDropdown)
    {
      if updateOk {
        UnreadAfterMark(notifications, id);
        notifications := MarkRead(notifications, id);
        unreadCount := if unreadCount - 1 < 0 then 0 else unreadCount - 1;
      }
    }

    /** `toggleDropdown`: opens a closed dropdown and closes an open one. */
    method ToggleDropdown()
      modifies this
      ensures showDropdown == !old(showDropdown)
      ensures notifications == old(notifications) && unreadCount == old(unreadCount)
    {
      showDropdown := !showDropdown;
    }
  }
}
