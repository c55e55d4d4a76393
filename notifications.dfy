/**
 * The notification list of `useNotifications`: every state change is a
 * function from the previous list to the next one. Notifications are the
 * plain objects the server sends, so an entry is a JSON object and a spread
 * `{...a, ...b}` is the map union `a + b`. Network calls and toasts are left
 * out; a failed PATCH is an input event (`RevertRead`).
 */
module Notifications {
  import opened Json
  import opened Seqs

  type Notification = Object
  type NotificationList = seq<Notification>

  /** `!n.read`: an entry counts as unread when its `read` field is falsy or missing. */
  predicate IsUnread(n: Notification) {
    !Truthy(Get(n, "read"))
  }

  /** `n.id === id`. */
  predicate HasId(n: Notification, id: Json) {
    Get(n, "id") == id
  }

  /** `notifications.filter(n => !n.read).length`. */
  function UnreadCount(ns: NotificationList): (r: nat)
    ensures r <= |ns|
  {
    |Filter(ns, IsUnread)|
  }

  /** The unread count is exactly the number of positions holding an unread entry. */
  lemma {:induction false} UnreadCountCounts(ns: NotificationList)
    ensures UnreadCount(ns) == if ns == [] then 0 else UnreadCount(ns[1..]) + (if IsUnread(ns[0]) then 1 else 0)
    ensures (forall i :: 0 <= i < |ns| ==> !IsUnread(ns[i])) ==> UnreadCount(ns) == 0
    ensures (forall i :: 0 <= i < |ns| ==> IsUnread(ns[i])) ==> UnreadCount(ns) == |ns|
  {
    if ns != [] {
      assert ns == [ns[0]] + ns[1..];
      FilterConcat([ns[0]], ns[1..], IsUnread);
      UnreadCountCounts(ns[1..]);
    }
  }

  /** `notification:new`: the incoming entry goes first. */
  function OnNew(ns: NotificationList, n: Notification): (r: NotificationList)
    ensures |r| == |ns| + 1 && r[0] == n && r[1..] == ns
  {
    [n] + ns
  }

  /** A new entry raises the unread count by one exactly when it is itself unread. */
  lemma OnNewUnreadCount(ns: NotificationList, n: Notification)
    ensures UnreadCount(OnNew(ns, n)) == UnreadCount(ns) + (if IsUnread(n) then 1 else 0)
  {
    UnreadCountCounts(OnNew(ns, n));
    assert OnNew(ns, n)[1..] == ns;
  }

  /** The defaults a broadcast entry starts from: a fresh id, the placeholder user, unread, stamped now. */
  function BroadcastDefaults(uuid: string, nowIso: string): Object {
    map["id" := Str(uuid), "userId" := Str("current-user"), "read" := Bool(false), "timestamp" := Str(nowIso)]
  }

  /** `{id, userId, read, timestamp, ...payload}`: the payload's fields win over the defaults. */
  function FromBroadcast(payload: Object, uuid: string, nowIso: string): (r: Notification)
    ensures forall k :: k in payload ==> k in r && r[k] == payload[k]
    ensures forall k :: k !in payload && k in BroadcastDefaults(uuid, nowIso) ==>
              k in r && r[k] == BroadcastDefaults(uuid, nowIso)[k]
    ensures r.Keys == payload.Keys + {"id", "userId", "read", "timestamp"}
  {
    BroadcastDefaults(uuid, nowIso) + payload
  }

  /** `notification:broadcast`: the completed entry goes first. */
  function OnBroadcast(ns: NotificationList, payload: Object, uuid: string, nowIso: string): (r: NotificationList)
    ensures |r| == |ns| + 1 && r[1..] == ns
    ensures r[0] == FromBroadcast(payload, uuid, nowIso)
  {
    OnNew(ns, FromBroadcast(payload, uuid, nowIso))
  }

  /** A broadcast without a `read` field arrives unread. */
  lemma BroadcastArrivesUnread(ns: NotificationList, payload: Object, uuid: string, nowIso: string)
    requires "read" !in payload
    ensures UnreadCount(OnBroadcast(ns, payload, uuid, nowIso)) == UnreadCount(ns) + 1
  {
    OnNewUnreadCount(ns, FromBroadcast(payload, uuid, nowIso));
  }

  /** `prev.map(n => n.id === id ? {...n, read} : n)`. */
  function SetRead(ns: NotificationList, id: Json, read: bool): (r: NotificationList)
    ensures |r| == |ns|
    ensures forall i :: 0 <= i < |ns| && HasId(ns[i], id) ==>
              Get(r[i], "read") == Bool(read) && r[i] - {"read"} == ns[i] - {"read"}
    ensures forall i :: 0 <= i < |ns| && !HasId(ns[i], id) ==> r[i] == ns[i]
  {
    seq(|ns|, i requires 0 <= i < |ns| => if HasId(ns[i], id) then ns[i]["read" := Bool(read)] else ns[i])
  }

  /** `notification:read` with payload `{id}`, and the optimistic update of `markAsRead(id)`. */
  function MarkRead(ns: NotificationList, id: Json): (r: NotificationList)
    ensures |r| == |ns|
    ensures forall i :: 0 <= i < |r| ==> HasId(r[i], id) ==> !IsUnread(r[i])
  {
    SetRead(ns, id, true)
  }

  /** The revert after a failed PATCH: every entry with the id becomes unread, whatever it was before. */
  function RevertRead(ns: NotificationList, id: Json): (r: NotificationList)
    ensures |r| == |ns|
    ensures forall i :: 0 <= i < |r| ==> HasId(r[i], id) ==> IsUnread(r[i])
  {
    SetRead(ns, id, false)
  }

  /** Marking an id read twice is marking it once. */
  lemma MarkReadIdempotent(ns: NotificationList, id: Json)
    ensures MarkRead(MarkRead(ns, id), id) == MarkRead(ns, id)
  {
    var once := MarkRead(ns, id);
    forall i | 0 <= i < |ns|
      ensures MarkRead(once, id)[i] == once[i]
    {
      if HasId(ns[i], id) {
        assert once[i] == ns[i]["read" := Bool(true)];
        assert HasId(once[i], id);
        assert once[i]["read" := Bool(true)] == once[i];
      }
    }
  }

  /** A revert after an optimistic mark leaves the entries with the id unread and the others as they were. */
  lemma RevertUndoesMark(ns: NotificationList, id: Json)
    ensures RevertRead(MarkRead(ns, id), id) == RevertRead(ns, id)
  {
    var once := MarkRead(ns, id);
    forall i | 0 <= i < |ns|
      ensures RevertRead(once, id)[i] == RevertRead(ns, id)[i]
    {
      if HasId(ns[i], id) {
        assert HasId(once[i], id);
        assert once[i]["read" := Bool(false)] == ns[i]["read" := Bool(false)];
      }
    }
  }

  /** Marking read never raises the unread count. */
  lemma {:induction false} MarkReadLowersUnread(ns: NotificationList, id: Json)
    ensures UnreadCount(MarkRead(ns, id)) <= UnreadCount(ns)
  {
    UnreadCountCounts(ns);
    UnreadCountCounts(MarkRead(ns, id));
    if ns != [] {
      assert MarkRead(ns, id)[1..] == MarkRead(ns[1..], id);
      MarkReadLowersUnread(ns[1..], id);
    }
  }

  /** The optimistic update of `markAllAsRead`: every entry read. */
  function MarkAllRead(ns: NotificationList): (r: NotificationList)
    ensures |r| == |ns|
    ensures forall i :: 0 <= i < |ns| ==> r[i] - {"read"} == ns[i] - {"read"}
  {
    seq(|ns|, i requires 0 <= i < |ns| => ns[i]["read" := Bool(true)])
  }

  /** After `markAllAsRead` nothing is unread. */
  lemma MarkAllReadClearsUnread(ns: NotificationList)
    ensures UnreadCount(MarkAllRead(ns)) == 0
  {
    var r := MarkAllRead(ns);
    assert forall i :: 0 <= i < |r| ==> Get(r[i], "read") == Bool(true);
    UnreadCountCounts(r);
  }

  /** The ids `markAllAsRead` sends a PATCH for: those of the unread entries, in list order. */
  function UnreadIds(ns: NotificationList): (r: seq<Json>)
    ensures |r| == UnreadCount(ns)
    ensures forall j :: 0 <= j < |ns| && IsUnread(ns[j]) ==> Get(ns[j], "id") in r
    ensures forall i :: 0 <= i < |r| ==> exists j :: 0 <= j < |ns| && IsUnread(ns[j]) && r[i] == Get(ns[j], "id")
  {
    var unread := Filter(ns, IsUnread);
    var ids := seq(|unread|, i requires 0 <= i < |unread| => Get(unread[i], "id"));
    assert forall j :: 0 <= j < |ns| && IsUnread(ns[j]) ==> Get(ns[j], "id") in ids by {
      forall j | 0 <= j < |ns| && IsUnread(ns[j]) ensures Get(ns[j], "id") in ids {
        var i :| 0 <= i < |unread| && unread[i] == ns[j];
        assert ids[i] == Get(ns[j], "id");
      }
    }
    ids
  }

  /** The ids come in list order: the first entry's id, if it is unread, then the rest's. */
  lemma {:induction false} UnreadIdsInOrder(ns: NotificationList)
    requires ns != []
    ensures UnreadIds(ns) == (if IsUnread(ns[0]) then [Get(ns[0], "id")] else []) + UnreadIds(ns[1..])
  {
    assert ns == [ns[0]] + ns[1..];
    FilterConcat([ns[0]], ns[1..], IsUnread);
  }

  /** `deleteNotification(id)`: drops every entry with the id and keeps the rest in order. */
  function Delete(ns: NotificationList, id: Json): (r: NotificationList)
    ensures |r| <= |ns|
    ensures forall i :: 0 <= i < |r| ==> !HasId(r[i], id)
    ensures forall i :: 0 <= i < |ns| && !HasId(ns[i], id) ==> ns[i] in r
  {
    Filter(ns, n => !HasId(n, id))
  }

  /** Deleting the same id twice is deleting it once. */
  lemma DeleteIdempotent(ns: NotificationList, id: Json)
    ensures Delete(Delete(ns, id), id) == Delete(ns, id)
  {
    var keep := (n: Notification) => !HasId(n, id);
    FilterKeepsAll(Filter(ns, keep), keep);
  }

  /** Deletion distributes over the list: it keeps the relative order of the survivors. */
  lemma DeletePreservesOrder(a: NotificationList, b: NotificationList, id: Json)
    ensures Delete(a + b, id) == Delete(a, id) + Delete(b, id)
  {
    FilterConcat(a, b, n => !HasId(n, id));
  }

  /** `clearAll()`. */
  function ClearAll(ns: NotificationList): (r: NotificationList)
    ensures UnreadCount(r) == 0 && |r| == 0
  {
    []
  }
}
