/** The notification inbox: the fetched list, marking one or all entries
    read, the unread count in the header, and the click guard. */
module Notifications {
  import opened Domain
  import Lists

  datatype Notification = Notification(
    id: string,
    title: string,
    message: string,
    kind: string,
    isRead: bool,
    createdAt: string)

  /** The list after `markAsRead(id)`: entries with that id read, the rest as they were. */
  function MarkRead(ns: seq<Notification>, id: string): (r: seq<Notification>)
    ensures |r| == |ns|
    ensures forall i :: 0 <= i < |ns| ==>
      if ns[i].id == id then r[i] == ns[i].(isRead := true) else r[i] == ns[i]
  {
    Lists.Map(ns, (n: Notification) => if n.id == id then n.(isRead := true) else n)
  }

  /** The list after `markAllRead`: every entry read, nothing else changed. */
  function AllRead(ns: seq<Notification>): (r: seq<Notification>)
    ensures |r| == |ns|
    ensures forall i :: 0 <= i < |ns| ==> r[i] == ns[i].(isRead := true)
  {
    Lists.Map(ns, (n: Notification) => n.(isRead := true))
  }

  predicate IsUnread(n: Notification) { !n.isRead }

  /** `notifications.filter(n => !n.is_read)`: the unread entries, each as
      often as it occurs in the list, in list order. */
  function Unread(ns: seq<Notification>): (r: seq<Notification>)
    ensures Lists.IsSubsequence(r, ns)
    ensures forall n :: n in r <==> n in ns && !n.isRead
    ensures forall n :: multiset(r)[n] == if n.isRead then 0 else multiset(ns)[n]
  {
    Lists.FilterMultiset(ns, IsUnread);
    Lists.Filter(ns, IsUnread)
  }

  /** `unreadIds`: the ids of the unread entries, in list order. */
  function UnreadIds(ns: seq<Notification>): (r: seq<string>)
    ensures |r| == |Unread(ns)|
    ensures forall k :: 0 <= k < |r| ==> r[k] == Unread(ns)[k].id
  {
    Lists.Map(Unread(ns), (n: Notification) => n.id)
  }

  /** `unreadCount`. */
  function UnreadCount(ns: seq<Notification>): nat
  {
    |Unread(ns)|
  }

  /** The count is the number of positions holding an unread entry. */
  lemma UnreadCountIsCount(ns: seq<Notification>)
    ensures UnreadCount(ns) == |set i | 0 <= i < |ns| && !ns[i].isRead|
  {
    var unread := set i | 0 <= i < |ns| && !ns[i].isRead;
    assert Lists.Passing(ns, IsUnread) == unread;
    Lists.FilterLength(ns, IsUnread);
  }

  /** An id is among the unread ids iff some entry with it is unread. */
  lemma UnreadIdsExact(ns: seq<Notification>, x: string)
    ensures x in UnreadIds(ns) <==> exists i :: 0 <= i < |ns| && ns[i].id == x && !ns[i].isRead
  {
    var u := Unread(ns);
    if x in UnreadIds(ns) {
      var k :| 0 <= k < |u| && UnreadIds(ns)[k] == x;
      assert u[k] in u;
      var i :| 0 <= i < |ns| && ns[i] == u[k];
    }
    if exists i :: 0 <= i < |ns| && ns[i].id == x && !ns[i].isRead {
      var i :| 0 <= i < |ns| && ns[i].id == x && !ns[i].isRead;
      assert ns[i] in u;
      var k :| 0 <= k < |u| && u[k] == ns[i];
      assert UnreadIds(ns)[k] == x;
    }
  }

  /** The count is zero exactly when every entry is read. */
  lemma UnreadCountZeroIff(ns: seq<Notification>)
    ensures UnreadCount(ns) == 0 <==> forall i :: 0 <= i < |ns| ==> ns[i].isRead
  {
    if UnreadCount(ns) != 0 {
      assert Unread(ns)[0] in Unread(ns);
    } else {
      forall i | 0 <= i < |ns| ensures ns[i].isRead {
        assert ns[i] in ns;
      }
    }
  }

  /** After marking one id read, the unread ids are the old ones without it. */
  lemma MarkReadUnreadIds(ns: seq<Notification>, id: string, x: string)
    ensures x in UnreadIds(MarkRead(ns, id)) <==> x in UnreadIds(ns) && x != id
  {
    var ms := MarkRead(ns, id);
    UnreadIdsExact(ns, x);
    UnreadIdsExact(ms, x);
    if exists i :: 0 <= i < |ns| && ns[i].id == x && !ns[i].isRead && x != id {
      var i :| 0 <= i < |ns| && ns[i].id == x && !ns[i].isRead && x != id;
      assert ms[i] == ns[i];
    }
  }

  /** After marking all read, nothing is unread. */
  lemma AllReadNoneUnread(ns: seq<Notification>)
    ensures UnreadCount(AllRead(ns)) == 0
  {
    UnreadCountZeroIff(AllRead(ns));
  }

  class Inbox {
    var notifications: seq<Notification>
    var isLoading: bool

    constructor()
      ensures notifications == [] && isLoading
    {
      notifications := [];
      isLoading := true;
    }

    /** The fetch effect: nothing happens without a user (the loading state
        then stays on); otherwise a returned list replaces the old one and
        loading ends. */
    method Fetched(user: Option<User>, data: Option<seq<Notification>>)
      modifies this
      ensures user.None? ==> notifications == old(notifications) && isLoading == old(isLoading)
      ensures user.Some? ==> !isLoading && notifications == (if data.Some? then data.value else old(notifications))
    {
      if user.None? {
        return;
      }
      if data.Some? {
        notifications := data.value;
      }
      isLoading := false;
    }

    /** `markAsRead(id)`, once the remote update has returned. */
    method MarkAsRead(id: string)
      modifies this
      ensures notifications == MarkRead(old(notifications), id)
      ensures isLoading == old(isLoading)
    {
      notifications := MarkRead(notifications, id);
    }

    /** `markAllRead`. Returns the ids sent to the remote update, or `[]`
        when it returned early. */
    method MarkAllRead(user: Option<User>) returns (sent: seq<string>)
      modifies this
      ensures user.None? || UnreadIds(old(notifications)) == [] ==>
        sent == [] && notifications == old(notifications)
      ensures user.Some? && UnreadIds(old(notifications)) != [] ==>
        sent == UnreadIds(old(notifications)) && notifications == AllRead(old(notifications))
      ensures isLoading == old(isLoading)
    {
      if user.None? {
        return [];
      }
      var unreadIds := UnreadIds(notifications);
      if |unreadIds| == 0 {
        return [];
      }
      sent := unreadIds;
      notifications := AllRead(notifications);
    }

    /** A click on entry `i`: only an unread entry triggers `markAsRead`. */
    method Click(i: nat)
      requires i < |notifications|
      modifies this
      ensures old(notifications[i].isRead) ==> notifications == old(notifications)
      ensures !old(notifications[i].isRead) ==> notifications == MarkRead(old(notifications), old(notifications[i].id))
      ensures isLoading == old(isLoading)
    {
      if !notifications[i].isRead {
        MarkAsRead(notifications[i].id);
      }
    }
  }
}
