/** In-app notifications: sending them for a booking, reading and deleting them. */
module NotificationService {
  import opened Wrappers
  import opened Domain
  import opened Collections
  import opened Store

  /** An unread in-app notification of `kind` for the booking's customer, about that booking. */
  function About(bs: seq<Booking>, booking: BookingId, kind: NotificationType): Notification
    requires booking < |bs|
  {
    Notification(bs[booking].customer, Some(booking), kind, false, InApp)
  }

  /** Every `send…` method: appends one such notification. */
  method Send(st: Store, booking: BookingId, kind: NotificationType)
    requires booking < |st.bookings|
    modifies st`notifications
    ensures st.notifications == old(st.notifications) + [Some(About(st.bookings, booking, kind))]
  {
    var n := Notification(st.bookings[booking].customer, Some(booking), kind, false, InApp);
    st.notifications := st.notifications + [Some(n)];
  }

  /** A stored notification of `user` that has not been read. */
  predicate IsUnreadFor(n: Option<Notification>, user: UserId) {
    n.Some? && n.value.user == user && !n.value.isRead
  }

  /** `getUnreadCount`: how many of the stored notifications are the user's and unread. */
  function UnreadCount(ns: seq<Option<Notification>>, user: UserId): (c: nat)
    ensures c == |set i | 0 <= i < |ns| && IsUnreadFor(ns[i], user)|
    ensures c <= |ns|
    ensures c == 0 <==> forall i :: 0 <= i < |ns| ==> !IsUnreadFor(ns[i], user)
  {
    var p := (i: nat) => i < |ns| && IsUnreadFor(ns[i], user);
    var c := Count(|ns|, p);
    CountIsSize(|ns|, p);
    assert (set i: nat | i < |ns| && p(i)) == set i | 0 <= i < |ns| && IsUnreadFor(ns[i], user);
    assert c == 0 ==> forall i :: 0 <= i < |ns| ==> !IsUnreadFor(ns[i], user) by {
      if c == 0 {
        forall i | 0 <= i < |ns|
          ensures !IsUnreadFor(ns[i], user)
        {
          assert !p(i);
        }
      }
    }
    c
  }

  /** A stored notification addressed to `user`. */
  predicate IsFor(n: Option<Notification>, user: UserId) {
    n.Some? && n.value.user == user
  }

  /**
   * `getUserNotifications`: the newest `limit` of the user's notifications
   * (all of them when there are fewer), newest first; a page size below one
   * is refused.
   */
  function RecentNotifications(ns: seq<Option<Notification>>, user: UserId, limit: int): (r: Result<seq<nat>, Failure>)
    ensures r.Err? <==> limit < 1
    ensures r.Ok? ==> var total := |set i | 0 <= i < |ns| && IsFor(ns[i], user)|;
      |r.value| == if total <= limit then total else limit
    ensures r.Ok? ==> forall k :: 0 <= k < |r.value| ==> r.value[k] < |ns| && IsFor(ns[r.value[k]], user)
    ensures r.Ok? ==> forall j, k :: 0 <= j < k < |r.value| ==> r.value[j] > r.value[k]
    ensures r.Ok? ==> forall i, k :: 0 <= i < |ns| && IsFor(ns[i], user) && i !in r.value && 0 <= k < |r.value| ==>
      i < r.value[k]
  {
    if limit < 1 then Err(InvalidPageSize)
    else
      var mine := Mine(ns, user);
      var newest := Reverse(mine);
      var page := if |newest| <= limit then newest else newest[..limit];
      NewestFirst(mine, page);
      Ok(page)
  }

  /** The ids of the user's stored notifications, oldest first. */
  function Mine(ns: seq<Option<Notification>>, user: UserId): (r: seq<nat>)
    ensures forall i: nat :: i in r <==> i < |ns| && IsFor(ns[i], user)
    ensures Increasing(r)
    ensures |r| == |set i | 0 <= i < |ns| && IsFor(ns[i], user)|
  {
    var p := (i: nat) => i < |ns| && IsFor(ns[i], user);
    FilterIncreasing(|ns|, p);
    CountIsFilterLength(|ns|, p);
    CountIsSize(|ns|, p);
    assert (set i: nat | i < |ns| && p(i)) == set i | 0 <= i < |ns| && IsFor(ns[i], user);
    Filter(|ns|, p)
  }

  /**
   * A prefix of an increasing sequence reversed runs newest first, and every
   * element it leaves out is older than every element it keeps.
   */
  lemma NewestFirst(mine: seq<nat>, page: seq<nat>)
    requires Increasing(mine)
    requires page <= Reverse(mine)
    ensures forall k :: 0 <= k < |page| ==> page[k] in mine
    ensures forall j, k :: 0 <= j < k < |page| ==> page[j] > page[k]
    ensures forall i, k :: i in mine && i !in page && 0 <= k < |page| ==> i < page[k]
  {
    var newest := Reverse(mine);
    forall i, k | i in mine && i !in page && 0 <= k < |page|
      ensures i < page[k]
    {
      var m :| 0 <= m < |mine| && mine[m] == i;
      var j := |mine| - 1 - m;
      assert newest[j] == i;
      assert page[k] == newest[k] == mine[|mine| - 1 - k];
    }
  }

  /** The sequence backwards. */
  function Reverse(s: seq<nat>): (r: seq<nat>)
    ensures |r| == |s|
    ensures forall k :: 0 <= k < |s| ==> r[k] == s[|s| - 1 - k]
  {
    if s == [] then [] else Reverse(s[1..]) + [s[0]]
  }

  /** Every notification of `user` marked read; the others as they were. */
  function AllRead(ns: seq<Option<Notification>>, user: UserId): (r: seq<Option<Notification>>)
    ensures |r| == |ns|
  {
    seq(|ns|, i requires 0 <= i < |ns| =>
      if ns[i].Some? && ns[i].value.user == user then Some(ns[i].value.(isRead := true)) else ns[i])
  }

  /**
   * After marking everything read, the user has no unread notification and
   * every other user's unread count is unchanged.
   */
  lemma AllReadClearsOnlyThatUser(ns: seq<Option<Notification>>, user: UserId, other: UserId)
    requires other != user
    ensures UnreadCount(AllRead(ns, user), user) == 0
    ensures UnreadCount(AllRead(ns, user), other) == UnreadCount(ns, other)
  {
    var r := AllRead(ns, user);
    CountAgrees(|ns|, (i: nat) => i < |r| && IsUnreadFor(r[i], other),
                      (i: nat) => i < |ns| && IsUnreadFor(ns[i], other));
  }

  /** `markAsRead`: marks one notification read; an unknown id is ignored. */
  method MarkAsRead(st: Store, id: NotificationId)
    modifies st`notifications
    ensures if id < |old(st.notifications)| && old(st.notifications)[id].Some?
      then st.notifications == old(st.notifications)[id := Some(old(st.notifications)[id].value.(isRead := true))]
      else st.notifications == old(st.notifications)
  {
    if id < |st.notifications| && st.notifications[id].Some? {
      st.notifications := st.notifications[id := Some(st.notifications[id].value.(isRead := true))];
    }
  }

  /** `markAllAsRead`: marks each of the user's unread notifications read. */
  method MarkAllAsRead(st: Store, user: UserId)
    modifies st`notifications
    ensures st.notifications == AllRead(old(st.notifications), user)
  {
    var ns := st.notifications;
    var p := (i: nat) => i < |ns| && IsUnreadFor(ns[i], user);
    var unread := Filter(|ns|, p);
    FilterIncreasing(|ns|, p);
    var k := 0;
    while k < |unread|
      invariant 0 <= k <= |unread|
      invariant |st.notifications| == |ns|
      invariant forall i :: 0 <= i < |ns| ==>
        st.notifications[i] == if i in unread[..k] then Some(ns[i].value.(isRead := true)) else ns[i]
    {
      var id := unread[k];
      assert unread[..k + 1] == unread[..k] + [id];
      assert id !in unread[..k];
      st.notifications := st.notifications[id := Some(st.notifications[id].value.(isRead := true))];
      k := k + 1;
    }
    assert unread[..k] == unread;
    forall i | 0 <= i < |ns|
      ensures st.notifications[i] == AllRead(ns, user)[i]
    {
      if ns[i].Some? && ns[i].value.user == user && ns[i].value.isRead {
        assert ns[i].value.(isRead := true) == ns[i].value;
      }
    }
  }

  /** `deleteNotification`: removes one notification; an unknown id is ignored. */
  method DeleteNotification(st: Store, id: NotificationId)
    modifies st`notifications
    ensures if id < |old(st.notifications)|
      then st.notifications == old(st.notifications)[id := None]
      else st.notifications == old(st.notifications)
  {
    if id < |st.notifications| {
      st.notifications := st.notifications[id := None];
    }
  }
}
