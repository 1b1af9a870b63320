/**
 * The budget alerts page: the list of alerts raised when spending nears a
 * budget, with an unread-only switch, a severity colour per alert and a
 * "mark all as read" action.
 */
module BudgetAlerts {
  import opened Wrappers
  import opened Js

  /** An alert as the server returns it: its id, its `is_read` flag and the share of the budget used. */
  datatype Alert = Alert(id: Value, isRead: Value, percentage: real)

  /** `getSeverityColor`: red from 100 %, orange from 90 %, yellow below. */
  function SeverityColor(percentage: real): (r: string)
    ensures r == "red" <==> percentage >= 100.0
    ensures r == "orange" <==> 90.0 <= percentage < 100.0
    ensures r == "yellow" <==> percentage < 90.0
  {
    if percentage >= 100.0 then "red"
    else if percentage >= 90.0 then "orange"
    else "yellow"
  }

  /** `!alert.is_read` */
  predicate IsUnread(a: Alert) {
    !Truthy(a.isRead)
  }

  /** `alerts.filter(alert => !alert.is_read)` */
  function Unread(alerts: seq<Alert>): (r: seq<Alert>)
    ensures |r| <= |alerts|
  {
    if alerts == [] then []
    else if IsUnread(alerts[0]) then [alerts[0]] + Unread(alerts[1..])
    else Unread(alerts[1..])
  }

  /** `unreadCount` */
  function UnreadCount(alerts: seq<Alert>): nat {
    |Unread(alerts)|
  }

  /** The unread selection holds exactly the unread alerts of the list. */
  lemma {:induction false} UnreadMembers(alerts: seq<Alert>)
    ensures forall a :: a in Unread(alerts) <==> a in alerts && IsUnread(a)
  {
    if alerts != [] {
      UnreadMembers(alerts[1..]);
      assert alerts == [alerts[0]] + alerts[1..];
    }
  }

  /** Counting unread alerts adds up over the parts of a list. */
  lemma {:induction false} UnreadAppend(a: seq<Alert>, b: seq<Alert>)
    ensures Unread(a + b) == Unread(a) + Unread(b)
    ensures UnreadCount(a + b) == UnreadCount(a) + UnreadCount(b)
  {
    if a == [] {
      assert a + b == b;
    } else {
      var ab := a + b;
      assert ab[0] == a[0] && ab[1..] == a[1..] + b;
      UnreadAppend(a[1..], b);
      if IsUnread(a[0]) {
        calc {
          Unread(ab);
          [a[0]] + Unread(a[1..] + b);
          [a[0]] + (Unread(a[1..]) + Unread(b));
          ([a[0]] + Unread(a[1..])) + Unread(b);
        }
      } else {
        assert Unread(ab) == Unread(a[1..] + b);
      }
    }
  }

  /** Nothing is unread exactly when every alert is read; everything is unread exactly when the count is the list's length. */
  lemma {:induction false} UnreadCountExtremes(alerts: seq<Alert>)
    ensures UnreadCount(alerts) == 0 <==> forall i :: 0 <= i < |alerts| ==> !IsUnread(alerts[i])
    ensures UnreadCount(alerts) == |alerts| <==> forall i :: 0 <= i < |alerts| ==> IsUnread(alerts[i])
  {
    if alerts != [] {
      UnreadCountExtremes(alerts[1..]);
      assert forall i :: 1 <= i < |alerts| ==> alerts[i] == alerts[1..][i - 1];
    }
  }

  /** The request path of `markAsRead(id)`. */
  function ReadPath(id: Value): string {
    "budget-alerts/" + ToString(id) + "/read"
  }

  /** The `PUT` requests `markAllAsRead` sends: one per unread alert, in list order. */
  function MarkAllTargets(alerts: seq<Alert>): (r: seq<string>)
    ensures |r| == UnreadCount(alerts)
    ensures forall i :: 0 <= i < |r| ==> r[i] == ReadPath(Unread(alerts)[i].id)
  {
    var unread := Unread(alerts);
    seq(|unread|, i requires 0 <= i < |unread| => ReadPath(unread[i].id))
  }

  /** Every unread alert is marked, and every path sent belongs to an unread alert of the list. */
  lemma MarkAllTargetsExactly(alerts: seq<Alert>)
    ensures forall a :: a in alerts && IsUnread(a) ==> ReadPath(a.id) in MarkAllTargets(alerts)
    ensures forall p :: p in MarkAllTargets(alerts) ==>
              exists a :: a in alerts && IsUnread(a) && p == ReadPath(a.id)
  {
    UnreadMembers(alerts);
    var unread := Unread(alerts);
    var targets := MarkAllTargets(alerts);
    forall a | a in alerts && IsUnread(a)
      ensures ReadPath(a.id) in targets
    {
      var i :| 0 <= i < |unread| && unread[i] == a;
      assert targets[i] == ReadPath(a.id);
    }
    forall p | p in targets
      ensures exists a :: a in alerts && IsUnread(a) && p == ReadPath(a.id)
    {
      var i :| 0 <= i < |targets| && targets[i] == p;
      assert unread[i] in unread;
    }
  }

  /** `showUnreadOnly ? '?unread_only=true' : ''` */
  function QuerySuffix(showUnreadOnly: bool): (r: string)
    ensures r != "" <==> showUnreadOnly
    ensures showUnreadOnly ==> r == "?unread_only=true"
  {
    if showUnreadOnly then "?unread_only=true" else ""
  }

  /** The path `fetchAlerts` requests. */
  function AlertsPath(showUnreadOnly: bool): string {
    "budget-alerts" + QuerySuffix(showUnreadOnly)
  }

  /** The line under the heading: the unread count, or "All caught up!" when there is none. */
  function HeaderText(unreadCount: nat): (r: string)
    ensures unreadCount > 0 ==> r == IntToString(unreadCount) + " unread alerts"
    ensures unreadCount == 0 ==> r == "All caught up!"
  {
    if unreadCount > 0 then IntToString(unreadCount) + " unread alerts" else "All caught up!"
  }

  /** "Mark All as Read" is shown only while an alert is unread. */
  predicate ShowsMarkAll(alerts: seq<Alert>) {
    UnreadCount(alerts) > 0
  }

  /** The mark-all button is shown exactly when it has something to send. */
  lemma MarkAllShownIffTargets(alerts: seq<Alert>)
    ensures ShowsMarkAll(alerts) <==> MarkAllTargets(alerts) != []
    ensures !ShowsMarkAll(alerts) <==> HeaderText(UnreadCount(alerts)) == "All caught up!"
  {
    if UnreadCount(alerts) > 0 {
      var n := UnreadCount(alerts);
      assert HeaderText(n) != "All caught up!" by {
        var h := HeaderText(n);
        var t := IntToString(n);
        assert h == t + " unread alerts";
        NatToStringDigits(n);
        assert h[|t|] == ' ' && |h| == |t| + 14;
        assert |"All caught up!"| == 14;
      }
    }
  }

  /** The answer to `fetchAlerts`: the `data` field (None for null or missing), or a failure. */
  datatype FetchOutcome = Fetched(data: Option<seq<Alert>>) | FetchFailed

  /** The budget alerts page's state. */
  class BudgetAlertsPage {
    var alerts: seq<Alert>
    var showUnreadOnly: bool
    var loading: bool

    constructor()
      ensures alerts == [] && !showUnreadOnly && !loading
    {
      alerts := [];
      showUnreadOnly := false;
      loading := false;
    }

    /** The "Unread Only" / "Show All" button. */
    method ToggleUnreadOnly()
      modifies this`showUnreadOnly
      ensures showUnreadOnly == !old(showUnreadOnly)
    {
      showUnreadOnly := !showUnreadOnly;
    }

    /**
     * `fetchAlerts`: requests the path for the current switch and stores
     * `data || []`; a failure leaves the list as it was.
     */
    method FetchAlerts(outcome: FetchOutcome) returns (path: string)
      modifies this`alerts, this`loading
      ensures path == AlertsPath(showUnreadOnly)
      ensures outcome.Fetched? ==> alerts == (if outcome.data.Some? then outcome.data.value else [])
      ensures outcome.FetchFailed? ==> alerts == old(alerts)
      ensures !loading
    {
      loading := true;
      path := "budget-alerts" + (if showUnreadOnly then "?unread_only=true" else "");
      if outcome.Fetched? {
        alerts := if outcome.data.Some? then outcome.data.value else [];
      }
      loading := false;
    }

    /** `markAllAsRead`: the requests it sends for the current list. */
    method MarkAllAsRead() returns (targets: seq<string>)
      ensures |targets| == UnreadCount(alerts)
      ensures forall a :: a in alerts && IsUnread(a) ==> ReadPath(a.id) in targets
      ensures forall p :: p in targets ==> exists a :: a in alerts && IsUnread(a) && p == ReadPath(a.id)
    {
      var unread := Unread(alerts);
      targets := [];
      var i := 0;
      while i < |unread|
        invariant 0 <= i <= |unread|
        invariant targets == MarkAllTargets(alerts)[..i]
      {
        targets := targets + [ReadPath(unread[i].id)];
        i := i + 1;
      }
      assert targets == MarkAllTargets(alerts);
      MarkAllTargetsExactly(alerts);
    }
  }
}
