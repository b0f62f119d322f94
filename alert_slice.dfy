/**
 * The client's alert store: the list of alerts, shown newest first, and the
 * number of unread alerts, which every reducer keeps in step with the list.
 */
module AlertSlice {
  import opened Wrappers
  import Severity
  import IdLists

  datatype AlertType = Interaction | Reminder | Expiry

  /** One alert; timestamps are ISO strings produced by the caller's clock. */
  datatype Alert = Alert(
    id: Option<string>,
    interactionId: string,
    alertType: AlertType,
    message: string,
    severityLevel: Severity.Level,
    isRead: bool,
    isAcknowledged: bool,
    createdAt: string,
    readAt: Option<string>,
    acknowledgedAt: Option<string>)

  function AlertId(a: Alert): Option<string> {
    a.id
  }

  /** 1 for an unread alert, 0 for a read one. */
  function Unread(a: Alert): nat {
    if a.isRead then 0 else 1
  }

  /** `alerts.filter(alert => !alert.isRead).length`. */
  function UnreadCount(s: seq<Alert>): (n: nat)
    ensures n <= |s|
  {
    if s == [] then 0 else Unread(s[0]) + UnreadCount(s[1..])
  }

  /** The count is zero exactly when every alert is read. */
  lemma {:induction false} UnreadCountZero(s: seq<Alert>)
    ensures UnreadCount(s) == 0 <==> forall j :: 0 <= j < |s| ==> s[j].isRead
  {
    if s != [] {
      UnreadCountZero(s[1..]);
      assert forall j :: 1 <= j < |s| ==> s[j] == s[1..][j - 1];
    }
  }

  lemma {:induction false} UnreadCountAppend(a: seq<Alert>, b: seq<Alert>)
    ensures UnreadCount(a + b) == UnreadCount(a) + UnreadCount(b)
  {
    if a == [] {
      assert a + b == b;
    } else {
      assert (a + b)[1..] == a[1..] + b;
      UnreadCountAppend(a[1..], b);
    }
  }

  /** Replacing one alert changes the unread count by the change in that alert alone. */
  lemma UnreadCountReplace(s: seq<Alert>, i: int, x: Alert)
    requires 0 <= i < |s|
    ensures UnreadCount(s[i := x]) == UnreadCount(s) - Unread(s[i]) + Unread(x)
  {
    assert s == s[..i] + [s[i]] + s[i + 1..];
    assert s[i := x] == s[..i] + [x] + s[i + 1..];
    UnreadCountAppend(s[..i] + [s[i]], s[i + 1..]);
    UnreadCountAppend(s[..i], [s[i]]);
    UnreadCountAppend(s[..i] + [x], s[i + 1..]);
    UnreadCountAppend(s[..i], [x]);
  }

  /** Removing one alert lowers the unread count exactly when that alert was unread. */
  lemma UnreadCountRemoveAt(s: seq<Alert>, i: int)
    requires 0 <= i < |s|
    ensures UnreadCount(s[..i] + s[i + 1..]) == UnreadCount(s) - Unread(s[i])
  {
    var pre, post := s[..i], s[i + 1..];
    calc {
      UnreadCount(s);
      { assert s == (pre + [s[i]]) + post; }
      UnreadCount((pre + [s[i]]) + post);
      { UnreadCountAppend(pre + [s[i]], post); UnreadCountAppend(pre, [s[i]]); }
      UnreadCount(pre) + UnreadCount([s[i]]) + UnreadCount(post);
      UnreadCount(pre) + Unread(s[i]) + UnreadCount(post);
      { UnreadCountAppend(pre, post); }
      UnreadCount(pre + post) + Unread(s[i]);
    }
  }

  /**
   * The list after `markAsRead(id)`: the first alert with the id, if unread, becomes
   * read with `readAt = now`; a read first match, a later duplicate and every other alert stay.
   */
  function MarkRead(s: seq<Alert>, id: string, now: string): (r: seq<Alert>)
    ensures |r| == |s|
    ensures forall j :: 0 <= j < |s| && j != IdLists.FindIndex(s, AlertId, id) ==> r[j] == s[j]
    ensures forall j :: 0 <= j < |s| ==> r[j].id == s[j].id
    ensures forall j :: 0 <= j < |s| && s[j].isRead ==> r[j] == s[j]
    ensures var i := IdLists.FindIndex(s, AlertId, id);
      UnreadCount(r) == UnreadCount(s) - (if 0 <= i && !s[i].isRead then 1 else 0)
    ensures var i := IdLists.FindIndex(s, AlertId, id);
      0 <= i && !s[i].isRead ==> r[i] == s[i].(isRead := true, readAt := Some(now))
  {
    var i := IdLists.FindIndex(s, AlertId, id);
    if 0 <= i && !s[i].isRead then
      var x := s[i].(isRead := true, readAt := Some(now));
      UnreadCountReplace(s, i, x);
      s[i := x]
    else s
  }

  /** Marking the same id read twice is the same as once, whatever the second clock reading. */
  lemma MarkReadIdempotent(s: seq<Alert>, id: string, now: string, later: string)
    ensures MarkRead(MarkRead(s, id, now), id, later) == MarkRead(s, id, now)
  {
    var r := MarkRead(s, id, now);
    IdLists.FindIndexSameIds(s, r, AlertId, id);
  }

  /**
   * The list after `markAsAcknowledged(id)`: the first alert with the id gets
   * `isAcknowledged = true` and `acknowledgedAt = now`; read flags never change.
   */
  function Acknowledge(s: seq<Alert>, id: string, now: string): (r: seq<Alert>)
    ensures |r| == |s|
    ensures forall j :: 0 <= j < |s| ==> r[j].isRead == s[j].isRead && r[j].id == s[j].id
    ensures forall j :: 0 <= j < |s| && j != IdLists.FindIndex(s, AlertId, id) ==> r[j] == s[j]
    ensures var i := IdLists.FindIndex(s, AlertId, id);
      0 <= i ==> r[i] == s[i].(isAcknowledged := true, acknowledgedAt := Some(now))
    ensures UnreadCount(r) == UnreadCount(s)
  {
    var i := IdLists.FindIndex(s, AlertId, id);
    if i == -1 then s
    else
      var x := s[i].(isAcknowledged := true, acknowledgedAt := Some(now));
      UnreadCountReplace(s, i, x);
      s[i := x]
  }

  /**
   * The list after `deleteAlert(id)`: only the first alert with the id is spliced out,
   * and the unread count drops exactly when that alert was unread.
   */
  function DeleteFirst(s: seq<Alert>, id: string): (r: seq<Alert>)
    ensures var i := IdLists.FindIndex(s, AlertId, id);
      |r| == if i == -1 then |s| else |s| - 1
    ensures IdLists.FindIndex(s, AlertId, id) == -1 ==> r == s
    ensures var i := IdLists.FindIndex(s, AlertId, id);
      0 <= i ==> r == s[..i] + s[i + 1..]
    ensures var i := IdLists.FindIndex(s, AlertId, id);
      UnreadCount(r) == UnreadCount(s) - (if 0 <= i && !s[i].isRead then 1 else 0)
  {
    var i := IdLists.FindIndex(s, AlertId, id);
    if i == -1 then s
    else
      UnreadCountRemoveAt(s, i);
      IdLists.RemoveAt(s, i)
  }

  /** The alert slice's state, updated in place by its reducers. */
  class AlertStore {
    var alerts: seq<Alert>
    var unreadCount: int
    var loading: bool
    var error: Option<string>

    /** The slice's invariant: the counter is the number of unread alerts. */
    ghost predicate Valid()
      reads this
    {
      unreadCount == UnreadCount(alerts)
    }

    /** `initialState`. */
    constructor ()
      ensures Valid()
      ensures alerts == [] && unreadCount == 0 && !loading && error == None
    {
      alerts := [];
      unreadCount := 0;
      loading := false;
      error := None;
    }

    /** `setAlerts`: replaces the list and recounts; it establishes the invariant from any state. */
    method SetAlerts(payload: seq<Alert>)
      modifies this
      ensures alerts == payload && unreadCount == UnreadCount(payload)
      ensures !loading && error == None
      ensures Valid()
    {
      alerts := payload;
      unreadCount := UnreadCount(payload);
      loading := false;
      error := None;
    }

    /** `addAlert`: puts the alert first and counts it if it is unread. */
    method AddAlert(alert: Alert)
      modifies this
      ensures alerts == [alert] + old(alerts)
      ensures unreadCount == old(unreadCount) + (if alert.isRead then 0 else 1)
      ensures loading == old(loading) && error == old(error)
      ensures old(Valid()) ==> Valid()
    {
      alerts := [alert] + alerts;
      assert alerts[1..] == old(alerts);
      if !alert.isRead {
        unreadCount := unreadCount + 1;
      }
    }

    /** `markAsRead`: reads the first alert with the id if it is unread, and uncounts it. */
    method MarkAsRead(id: string, now: string)
      modifies this
      ensures alerts == MarkRead(old(alerts), id, now)
      ensures unreadCount - old(unreadCount) == UnreadCount(alerts) - old(UnreadCount(alerts))
      ensures loading == old(loading) && error == old(error)
      ensures old(Valid()) ==> Valid()
    {
      var i := IdLists.FindIndex(alerts, AlertId, id);
      if i != -1 && !alerts[i].isRead {
        alerts := alerts[i := alerts[i].(isRead := true, readAt := Some(now))];
        unreadCount := unreadCount - 1;
      }
    }

    /** `markAsAcknowledged`: acknowledges the first alert with the id; the counter is untouched. */
    method MarkAsAcknowledged(id: string, now: string)
      modifies this
      ensures alerts == Acknowledge(old(alerts), id, now)
      ensures unreadCount == old(unreadCount)
      ensures loading == old(loading) && error == old(error)
      ensures old(Valid()) ==> Valid()
    {
      var i := IdLists.FindIndex(alerts, AlertId, id);
      if i != -1 {
        alerts := alerts[i := alerts[i].(isAcknowledged := true, acknowledgedAt := Some(now))];
      }
    }

    /** `deleteAlert`: splices out the first alert with the id, uncounting it if it was unread. */
    method DeleteAlert(id: string)
      modifies this
      ensures alerts == DeleteFirst(old(alerts), id)
      ensures unreadCount - old(unreadCount) == UnreadCount(alerts) - old(UnreadCount(alerts))
      ensures loading == old(loading) && error == old(error)
      ensures old(Valid()) ==> Valid()
    {
      var i := IdLists.FindIndex(alerts, AlertId, id);
      if i != -1 {
        if !alerts[i].isRead {
          unreadCount := unreadCount - 1;
        }
        alerts := alerts[..i] + alerts[i + 1..];
      }
    }

    method SetLoading(value: bool)
      modifies this
      ensures loading == value
      ensures alerts == old(alerts) && unreadCount == old(unreadCount) && error == old(error)
      ensures old(Valid()) ==> Valid()
    {
      loading := value;
    }

    /** `setError`: records the message and clears the loading flag. */
    method SetError(message: string)
      modifies this
      ensures error == Some(message) && !loading
      ensures alerts == old(alerts) && unreadCount == old(unreadCount)
      ensures old(Valid()) ==> Valid()
    {
      error := Some(message);
      loading := false;
    }
  }
}
