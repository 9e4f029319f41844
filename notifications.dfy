/** The notification state of the storefront (src/context/NotificationContext.jsx): an ordered
    list of notifications, newest first, and an unread counter, both changed only after the
    backend reports success. */
module Notifications {
  import Seqs

  datatype Kind = Order | Product | Delivery | Other

  /** A notification as held in state. `key` is the `_id` field, `altId` the `id` field a
      pushed payload may carry instead; an absent string field is "". */
  datatype Notification = Notification(
    key: string, altId: string, kind: Kind, title: string, message: string,
    createdAt: string, isRead: bool)

  /** The outcome of a mutating call: it threw, or it answered with a `success` flag. */
  datatype Reply = Threw | Replied(success: bool)

  /** The outcome of a page fetch. */
  datatype PageReply = PageThrew | PageReplied(success: bool, page: seq<Notification>)

  /** The outcome of an unread-count fetch. */
  datatype CountReply = CountThrew | CountReplied(success: bool, unreadCount: int)

  predicate Succeeded(r: Reply) {
    r.Replied? && r.success
  }

  /** A pushed payload keeps every field; its `_id` falls back to `id` when absent. */
  function Normalize(n: Notification): (r: Notification)
    ensures r.key == (if n.key != "" then n.key else n.altId)
    ensures r.(key := n.key) == n
    ensures r.key != "" <==> n.key != "" || n.altId != ""
  {
    n.(key := if n.key != "" then n.key else n.altId)
  }

  /** Normalising twice is normalising once. */
  lemma NormalizeIdempotent(n: Notification)
    ensures Normalize(Normalize(n)) == Normalize(n)
  {
  }

  /** The `map` in markAsRead: entries with the given `_id` become read. */
  function MarkRead(s: seq<Notification>, id: string): (r: seq<Notification>)
  {
    if s == [] then []
    else [if s[0].key == id then s[0].(isRead := true) else s[0]] + MarkRead(s[1..], id)
  }

  /** Exactly the entries whose `_id` is `id` become read; length, order and every other entry
      are unchanged. */
  lemma {:induction false} MarkReadAt(s: seq<Notification>, id: string)
    ensures |MarkRead(s, id)| == |s|
    ensures forall i :: 0 <= i < |s| ==>
      MarkRead(s, id)[i] == if s[i].key == id then s[i].(isRead := true) else s[i]
  {
    if s != [] {
      MarkReadAt(s[1..], id);
    }
  }

  /** The `map` in markAllAsRead. */
  function MarkAllRead(s: seq<Notification>): (r: seq<Notification>)
  {
    if s == [] then [] else [s[0].(isRead := true)] + MarkAllRead(s[1..])
  }

  /** Every entry becomes read and nothing else about it changes. */
  lemma {:induction false} MarkAllReadAt(s: seq<Notification>)
    ensures |MarkAllRead(s)| == |s|
    ensures forall i :: 0 <= i < |s| ==> MarkAllRead(s)[i] == s[i].(isRead := true)
  {
    if s != [] {
      MarkAllReadAt(s[1..]);
    }
  }

  /** The `filter` in deleteNotification: drop every entry with the given `_id`. */
  function Remove(s: seq<Notification>, id: string): seq<Notification>
  {
    Seqs.Filter((n: Notification) => n.key != id, s)
  }

  /** Exactly the entries with that `_id` disappear; every other entry stays, as often as before
      and in the same relative order. */
  lemma RemoveSpec(s: seq<Notification>, id: string, t: seq<Notification>, n: Notification)
    ensures forall m :: m in Remove(s, id) ==> m in s && m.key != id
    ensures multiset(Remove(s, id))[n] == if n.key == id then 0 else multiset(s)[n]
    ensures Remove(s + t, id) == Remove(s, id) + Remove(t, id)
  {
    Seqs.FilterCount((n: Notification) => n.key != id, s, n);
    Seqs.FilterAppend((n: Notification) => n.key != id, s, t);
  }

  /** The number of unread entries. */
  function CountUnread(s: seq<Notification>): nat
  {
    if s == [] then 0 else (if s[0].isRead then 0 else 1) + CountUnread(s[1..])
  }

  /** The number of unread entries with the given `_id`. */
  function CountUnreadWith(s: seq<Notification>, id: string): nat
  {
    if s == [] then 0
    else (if !s[0].isRead && s[0].key == id then 1 else 0) + CountUnreadWith(s[1..], id)
  }

  /** Marking `id` read removes from the unread count exactly the unread entries with that id. */
  lemma {:induction false} MarkReadUnread(s: seq<Notification>, id: string)
    ensures CountUnread(MarkRead(s, id)) == CountUnread(s) - CountUnreadWith(s, id)
  {
    if s != [] {
      MarkReadUnread(s[1..], id);
    }
  }

  /** After markAllAsRead nothing is unread. */
  lemma {:induction false} MarkAllReadUnread(s: seq<Notification>)
    ensures CountUnread(MarkAllRead(s)) == 0
  {
    if s != [] {
      MarkAllReadUnread(s[1..]);
    }
  }

  /** The counter as markAsRead leaves it: one less, never below zero. */
  function DecrementCounter(c: int): (r: int)
    ensures r >= 0
    ensures c >= 1 ==> r == c - 1
    ensures c <= 1 ==> r == 0
  {
    if c - 1 > 0 then c - 1 else 0
  }

  /** The notification state. Each handler's post-response update is one atomic step. */
  class NotificationCenter {
    var notifications: seq<Notification>
    var unreadCount: int
    var loading: bool

    /** The counter agrees with the list. The code does not keep this invariant in general;
        the lemmas below say which handlers preserve it. */
    ghost predicate InSync()
      reads this
    {
      unreadCount == CountUnread(notifications)
    }

    constructor ()
      ensures notifications == [] && unreadCount == 0 && !loading
      ensures InSync()
    {
      notifications := [];
      unreadCount := 0;
      loading := false;
    }

    /** The body of the socket `notification` handler: prepend the normalised payload and count
        it as unread. There is no check for an entry with the same `_id`. */
    method OnPush(payload: Notification)
      modifies this
      ensures notifications == [Normalize(payload)] + old(notifications)
      ensures unreadCount == old(unreadCount) + 1
      ensures loading == old(loading)
    {
      var normalized := Normalize(payload);
      notifications := [normalized] + notifications;
      unreadCount := unreadCount + 1;
    }

    /** fetchNotifications: a successful reply replaces the whole list; `loading` ends false. */
    method FetchNotifications(reply: PageReply)
      modifies this
      ensures notifications == if reply.PageReplied? && reply.success then reply.page else old(notifications)
      ensures unreadCount == old(unreadCount)
      ensures !loading
    {
      loading := true;
      if reply.PageReplied? && reply.success {
        notifications := reply.page;
      }
      loading := false;
    }

    /** fetchUnreadCount: a successful reply sets the counter to the server's value. */
    method FetchUnreadCount(reply: CountReply)
      modifies this
      ensures unreadCount == if reply.CountReplied? && reply.success then reply.unreadCount else old(unreadCount)
      ensures notifications == old(notifications) && loading == old(loading)
    {
      if reply.CountReplied? && reply.success {
        unreadCount := reply.unreadCount;
      }
    }

    /** markAsRead: on success the matching entries become read and the counter drops by one,
        clamped at zero; otherwise nothing changes. */
    method MarkAsRead(id: string, reply: Reply)
      modifies this
      ensures Succeeded(reply) ==> notifications == MarkRead(old(notifications), id)
      ensures Succeeded(reply) ==> unreadCount == DecrementCounter(old(unreadCount))
      ensures !Succeeded(reply) ==> notifications == old(notifications) && unreadCount == old(unreadCount)
      ensures loading == old(loading)
    {
      if Succeeded(reply) {
        notifications := MarkRead(notifications, id);
        unreadCount := DecrementCounter(unreadCount);
      }
    }

    /** markAllAsRead: on success every entry becomes read and the counter is zero. */
    method MarkAllAsRead(reply: Reply)
      modifies this
      ensures Succeeded(reply) ==> notifications == MarkAllRead(old(notifications)) && unreadCount == 0
      ensures !Succeeded(reply) ==> notifications == old(notifications) && unreadCount == old(unreadCount)
      ensures loading == old(loading)
    {
      if Succeeded(reply) {
        notifications := MarkAllRead(notifications);
        unreadCount := 0;
      }
    }

    /** deleteNotification: on success the entries with that `_id` go; the counter is untouched. */
    method DeleteNotification(id: string, reply: Reply)
      modifies this
      ensures notifications == if Succeeded(reply) then Remove(old(notifications), id) else old(notifications)
      ensures unreadCount == old(unreadCount) && loading == old(loading)
    {
      if Succeeded(reply) {
        notifications := Remove(notifications, id);
      }
    }

    /** clearAll: on success the list is empty and the counter zero. */
    method ClearAll(reply: Reply)
      modifies this
      ensures Succeeded(reply) ==> notifications == [] && unreadCount == 0
      ensures !Succeeded(reply) ==> notifications == old(notifications) && unreadCount == old(unreadCount)
      ensures loading == old(loading)
    {
      if Succeeded(reply) {
        notifications := [];
        unreadCount := 0;
      }
    }
  }

  /** A push keeps the counter in step with the list when the pushed payload is unread. */
  lemma PushKeepsSync(s: seq<Notification>, c: int, payload: Notification)
    requires c == CountUnread(s) && !payload.isRead
    ensures c + 1 == CountUnread([Normalize(payload)] + s)
  {
    assert ([Normalize(payload)] + s)[1..] == s;
  }

  /** markAsRead keeps the counter in step when exactly one entry is unread under that `_id`. */
  lemma MarkReadKeepsSync(s: seq<Notification>, c: int, id: string)
    requires c == CountUnread(s) && CountUnreadWith(s, id) == 1
    ensures DecrementCounter(c) == CountUnread(MarkRead(s, id))
  {
    MarkReadUnread(s, id);
  }

  /** markAllAsRead and clearAll always leave the counter in step. */
  lemma MarkAllAndClearSync(s: seq<Notification>)
    ensures 0 == CountUnread(MarkAllRead(s))
    ensures 0 == CountUnread([])
  {
    MarkAllReadUnread(s);
  }

  /** markAsRead on an `_id` that is already read still decrements, so the counter can fall
      below the number of unread entries. */
  lemma MarkReadOfReadEntryDesyncs()
    ensures var s := [Notification("a", "", Other, "", "", "", true), Notification("b", "", Other, "", "", "", false)];
      CountUnread(s) == 1 && DecrementCounter(1) != CountUnread(MarkRead(s, "a"))
  {
    var s := [Notification("a", "", Other, "", "", "", true), Notification("b", "", Other, "", "", "", false)];
    MarkReadUnread(s, "a");
    assert CountUnreadWith(s, "a") == 0;
  }

  /** Deleting an unread entry leaves the counter above the number of unread entries. */
  lemma DeleteUnreadDesyncs()
    ensures var s := [Notification("a", "", Other, "", "", "", false)];
      CountUnread(s) == 1 && CountUnread(Remove(s, "a")) == 0
  {
    var s := [Notification("a", "", Other, "", "", "", false)];
    assert Remove(s, "a") == [];
  }
}
