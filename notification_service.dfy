/** The notification service: the `notifications` table, sending, marking as read and the
    per-user listing. */
module NotificationService {
  import opened Common

  /** A row of `notifications`; `is_read` is an INTEGER column, 0 on insert. */
  datatype NotificationRow = NotificationRow(
    id: nat, userId: int, message: string, kind: Option<string>, isRead: int, createdAt: string)

  /** The GraphQL `Notification`. */
  datatype Notification = Notification(
    id: nat, userId: int, message: string, kind: Option<string>, isRead: bool, createdAt: string)

  /** `!!row.is_read`: any non-zero integer reads as true. */
  function IsRead(isRead: int): (b: bool)
    ensures b <==> isRead != 0
  {
    isRead != 0
  }

  /** The row mapping of getUserNotifications: snake_case columns to camelCase fields. */
  function ToNotification(row: NotificationRow): (n: Notification)
    ensures n.id == row.id && n.userId == row.userId && n.message == row.message
    ensures n.kind == row.kind && n.createdAt == row.createdAt
    ensures n.isRead <==> row.isRead != 0
  {
    Notification(row.id, row.userId, row.message, row.kind, IsRead(row.isRead), row.createdAt)
  }

  /** `UPDATE notifications SET is_read = 1 WHERE id = ?` */
  function SetRead(rows: seq<NotificationRow>, id: int): (r: seq<NotificationRow>)
    ensures |r| == |rows|
    ensures forall k | 0 <= k < |rows| ::
              r[k] == if rows[k].id == id then rows[k].(isRead := 1) else rows[k]
  {
    if rows == [] then []
    else [if rows[0].id == id then rows[0].(isRead := 1) else rows[0]] + SetRead(rows[1..], id)
  }

  /** `SELECT * FROM notifications WHERE user_id = ?` in insertion order. */
  function ForUser(rows: seq<NotificationRow>, userId: int): (r: seq<NotificationRow>)
    ensures forall row | row in r :: row in rows && row.userId == userId
    ensures forall row | row in rows && row.userId == userId :: row in r
  {
    if rows == [] then []
    else if rows[0].userId == userId then [rows[0]] + ForUser(rows[1..], userId)
    else ForUser(rows[1..], userId)
  }

  /** Ids strictly increase along the rows. */
  predicate Increasing(rows: seq<NotificationRow>)
  {
    forall i, j | 0 <= i < j < |rows| :: rows[i].id < rows[j].id
  }

  /** The user's rows keep the table's increasing id order. */
  lemma {:induction false} ForUserIncreasing(rows: seq<NotificationRow>, userId: int)
    requires Increasing(rows)
    ensures Increasing(ForUser(rows, userId))
  {
    if rows != [] {
      assert Increasing(rows[1..]);
      ForUserIncreasing(rows[1..], userId);
      if rows[0].userId == userId {
        var tail := ForUser(rows[1..], userId);
        var s := [rows[0]] + tail;
        forall i, j | 0 <= i < j < |s| ensures s[i].id < s[j].id {
          assert s[j] == tail[j - 1];
          if i > 0 {
            assert s[i] == tail[i - 1];
          } else {
            assert tail[j - 1] in rows[1..];
            var m :| 0 <= m < |rows[1..]| && rows[1..][m] == tail[j - 1];
            assert rows[m + 1] == s[j];
          }
        }
      }
    }
  }

  /** getUserNotifications on a given table: that user's rows, newest first, mapped. */
  function NotificationsOf(rows: seq<NotificationRow>, userId: int): (r: seq<Notification>)
    ensures var mine := ForUser(rows, userId);
            |r| == |mine| && forall k | 0 <= k < |r| :: r[k] == ToNotification(mine[|mine| - 1 - k])
  {
    var newestFirst := Reverse(ForUser(rows, userId));
    seq(|newestFirst|, k requires 0 <= k < |newestFirst| => ToNotification(newestFirst[k]))
  }

  /** The listing holds exactly the user's notifications: each element maps one of their rows,
      and each of their rows appears. */
  lemma NotificationsOfComplete(rows: seq<NotificationRow>, userId: int)
    ensures var r := NotificationsOf(rows, userId);
            forall k | 0 <= k < |r| ::
              r[k].userId == userId && exists row | row in rows :: row.userId == userId && r[k] == ToNotification(row)
    ensures var r := NotificationsOf(rows, userId);
            forall row | row in rows && row.userId == userId :: ToNotification(row) in r
  {
    var r := NotificationsOf(rows, userId);
    var mine := ForUser(rows, userId);
    forall k | 0 <= k < |r|
      ensures r[k].userId == userId && exists row | row in rows :: row.userId == userId && r[k] == ToNotification(row)
    {
      assert mine[|mine| - 1 - k] in mine;
    }
    forall row | row in rows && row.userId == userId ensures ToNotification(row) in r {
      var i :| 0 <= i < |mine| && mine[i] == row;
      assert r[|mine| - 1 - i] == ToNotification(row);
    }
  }

  /** On a table whose ids increase, the listing is newest first: ids strictly decrease. */
  lemma NotificationsOfNewestFirst(rows: seq<NotificationRow>, userId: int)
    requires Increasing(rows)
    ensures var r := NotificationsOf(rows, userId);
            forall i, j | 0 <= i < j < |r| :: r[i].id > r[j].id
  {
    var mine := ForUser(rows, userId);
    ForUserIncreasing(rows, userId);
    var r := NotificationsOf(rows, userId);
    forall i, j | 0 <= i < j < |r| ensures r[i].id > r[j].id {
      assert r[i].id == mine[|mine| - 1 - i].id && r[j].id == mine[|mine| - 1 - j].id;
    }
  }

  /** Marking as read twice is marking as read once. */
  lemma MarkAsReadIdempotent(rows: seq<NotificationRow>, id: int)
    ensures SetRead(SetRead(rows, id), id) == SetRead(rows, id)
  {
    var once := SetRead(rows, id);
    assert forall k | 0 <= k < |once| :: SetRead(once, id)[k] == once[k];
  }

  /** After marking, the row with that id reads as read and every other row is untouched. */
  lemma MarkAsReadEffect(rows: seq<NotificationRow>, id: int, k: int)
    requires 0 <= k < |rows|
    ensures rows[k].id == id ==> ToNotification(SetRead(rows, id)[k]).isRead
    ensures rows[k].id != id ==> SetRead(rows, id)[k] == rows[k]
  {
  }

  /** Marking an id no row has changes nothing. */
  lemma MarkAsReadUnknown(rows: seq<NotificationRow>, id: int)
    requires forall row | row in rows :: row.id != id
    ensures SetRead(rows, id) == rows
  {
    assert forall k | 0 <= k < |rows| :: rows[k] in rows;
  }

  /** The user's rows of a table with one more row of theirs end in that row. */
  lemma {:induction false} ForUserAppend(rows: seq<NotificationRow>, row: NotificationRow)
    ensures ForUser(rows + [row], row.userId) == ForUser(rows, row.userId) + [row]
  {
    if rows == [] {
      assert rows + [row] == [row];
    } else {
      assert (rows + [row])[1..] == rows[1..] + [row];
      ForUserAppend(rows[1..], row);
    }
  }

  /** A notification just sent heads its recipient's list, read as unread. */
  lemma SentNotificationComesFirst(rows: seq<NotificationRow>, row: NotificationRow)
    requires row.isRead == 0
    ensures var list := NotificationsOf(rows + [row], row.userId);
            |list| > 0 && list[0] == ToNotification(row) && !list[0].isRead
  {
    ForUserAppend(rows, row);
  }

  /** The notification table and its AUTOINCREMENT counter. */
  class NotificationStore {
    var rows: seq<NotificationRow>
    var nextId: nat

    /** Ids increase in insertion order and stay below the counter. */
    ghost predicate Valid()
      reads this
    {
      && 1 <= nextId
      && Increasing(rows)
      && (forall i | 0 <= i < |rows| :: rows[i].id < nextId)
    }

    constructor ()
      ensures Valid() && rows == [] && nextId == 1
    {
      rows, nextId := [], 1;
    }

    /** sendNotification: inserts one unread row stamped with the database clock `dbNow`
        and answers with the new id, the given fields, isRead false and the service clock
        `isoNow`. */
    method SendNotification(userId: int, message: string, kind: Option<string>, dbNow: string, isoNow: string)
      returns (n: Notification)
      requires Valid()
      modifies this
      ensures Valid()
      ensures rows == old(rows) + [NotificationRow(old(nextId), userId, message, kind, 0, dbNow)]
      ensures nextId == old(nextId) + 1
      ensures n == Notification(old(nextId), userId, message, kind, false, isoNow)
    {
      var newId := nextId;
      rows := rows + [NotificationRow(newId, userId, message, kind, 0, dbNow)];
      nextId := nextId + 1;
      n := Notification(newId, userId, message, kind, false, isoNow);
    }

    /** markAsRead: sets is_read on the row with that id, if any, and answers true. */
    method MarkAsRead(id: int) returns (ok: bool)
      requires Valid()
      modifies this`rows
      ensures Valid()
      ensures rows == SetRead(old(rows), id)
      ensures ok
    {
      rows := SetRead(rows, id);
      ok := true;
    }

    /** getUserNotifications: that user's notifications, and all of them, newest first. */
    function GetUserNotifications(userId: int): (r: seq<Notification>)
      reads this
      ensures forall k | 0 <= k < |r| ::
                r[k].userId == userId && exists row | row in rows :: row.userId == userId && r[k] == ToNotification(row)
      ensures forall row | row in rows && row.userId == userId :: ToNotification(row) in r
      ensures Valid() ==> forall i, j | 0 <= i < j < |r| :: r[i].id > r[j].id
    {
      NotificationsOfComplete(rows, userId);
      assert Valid() ==> forall i, j | 0 <= i < j < |NotificationsOf(rows, userId)| ::
                           NotificationsOf(rows, userId)[i].id > NotificationsOf(rows, userId)[j].id by {
        if Valid() { NotificationsOfNewestFirst(rows, userId); }
      }
      NotificationsOf(rows, userId)
    }
  }
}
