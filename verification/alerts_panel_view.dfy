/** The alerts panel (src/components/AlertsPanel.tsx): alerts the user has
    dismissed are hidden by id for the life of the panel, and the visible
    ones are summarised by severity. */
module AlertsPanelView {
  import opened Js
  import opened Seqs
  import opened Inventory
  import opened Analytics

  function NotDismissed(dismissed: seq<string>): Alert -> bool
  {
    (a: Alert) => a.id !in dismissed
  }

  /** `visibleAlerts`. */
  function Visible(alerts: seq<Alert>, dismissed: seq<string>): (r: seq<Alert>)
    ensures |r| <= |alerts|
    ensures forall k :: 0 <= k < |r| ==> r[k].id !in dismissed
  {
    Filter(alerts, NotDismissed(dismissed))
  }

  /** An alert is shown exactly when its id has not been dismissed, and the
      shown alerts keep the engine's order. */
  lemma VisibleExact(alerts: seq<Alert>, dismissed: seq<string>)
    ensures forall i :: 0 <= i < |alerts| ==> (alerts[i] in Visible(alerts, dismissed) <==> alerts[i].id !in dismissed)
    ensures var idx := KeptIndices(alerts, NotDismissed(dismissed));
      forall k, l :: 0 <= k < l < |idx| ==> idx[k] < idx[l]
  {
    FilterMembers(alerts, NotDismissed(dismissed));
    KeptIndicesIncrease(alerts, NotDismissed(dismissed));
  }

  /** `dismissAlert`. */
  function Dismiss(dismissed: seq<string>, id: string): (r: seq<string>)
    ensures id in r
    ensures forall x :: x in dismissed ==> x in r
  {
    dismissed + [id]
  }

  function OtherId(id: string): Alert -> bool { (a: Alert) => a.id != id }

  /** Dismissing hides exactly the alerts with that id: the new visible list
      is the old one without them. */
  lemma DismissHidesOne(alerts: seq<Alert>, dismissed: seq<string>, id: string)
    ensures Visible(alerts, Dismiss(dismissed, id)) == Filter(Visible(alerts, dismissed), OtherId(id))
  {
    FilterFilter(alerts, NotDismissed(dismissed), OtherId(id), NotDismissed(Dismiss(dismissed, id)));
  }

  /** Dismissing twice is dismissing once, and dismissals commute. */
  lemma DismissIdempotent(alerts: seq<Alert>, dismissed: seq<string>, id: string, other: string)
    ensures Visible(alerts, Dismiss(Dismiss(dismissed, id), id)) == Visible(alerts, Dismiss(dismissed, id))
    ensures Visible(alerts, Dismiss(Dismiss(dismissed, id), other)) == Visible(alerts, Dismiss(Dismiss(dismissed, other), id))
  {
    FilterCongruent(alerts, NotDismissed(Dismiss(Dismiss(dismissed, id), id)), NotDismissed(Dismiss(dismissed, id)));
    FilterCongruent(alerts, NotDismissed(Dismiss(Dismiss(dismissed, id), other)), NotDismissed(Dismiss(Dismiss(dismissed, other), id)));
  }

  /** The empty state ("no alert") is shown exactly when every alert has been
      dismissed. */
  lemma EmptyStateIff(alerts: seq<Alert>, dismissed: seq<string>)
    ensures |Visible(alerts, dismissed)| == 0 <==> forall i :: 0 <= i < |alerts| ==> alerts[i].id in dismissed
  {
    FilterMembers(alerts, NotDismissed(dismissed));
    if |Visible(alerts, dismissed)| != 0 {
      var v := Visible(alerts, dismissed);
      assert v[0] in alerts;
    }
  }

  function HasSeverity(s: Severity): Alert -> bool { (a: Alert) => a.severity == s }

  /** The summary line: visible alerts of one severity. */
  function SeverityCount(visible: seq<Alert>, s: Severity): (n: nat)
    ensures n <= |visible|
    ensures n == 0 <==> forall i :: 0 <= i < |visible| ==> visible[i].severity != s
  {
    FilterEmpty(visible, HasSeverity(s));
    |Filter(visible, HasSeverity(s))|
  }

  function NotSeverity(s: Severity): Alert -> bool { (a: Alert) => a.severity != s }

  /** The three severity counts account for every visible alert once. */
  lemma CountsAddUp(visible: seq<Alert>)
    ensures SeverityCount(visible, High) + SeverityCount(visible, Medium) + SeverityCount(visible, LowSeverity) == |visible|
  {
    FilterPartitionLength(visible, HasSeverity(High), NotSeverity(High));
    var rest := Filter(visible, NotSeverity(High));
    FilterPartitionLength(rest, HasSeverity(Medium), NotSeverity(Medium));
    FilterCongruent(rest, HasSeverity(LowSeverity), NotSeverity(Medium));
    FilterFilter(visible, NotSeverity(High), HasSeverity(Medium), HasSeverity(Medium));
    FilterFilter(visible, NotSeverity(High), HasSeverity(LowSeverity), HasSeverity(LowSeverity));
  }

  /** The engine never raises a low-severity alert, so that part of the
      summary is always hidden. */
  lemma NoLowSeverityFromEngine(products: seq<Product>, ts: seq<Txn>, thisMonth: Window, lastMonth: Window, dismissed: seq<string>)
    ensures SeverityCount(Visible(Alerts(products, ts, thisMonth, lastMonth), dismissed), LowSeverity) == 0
  {
    var alerts := Alerts(products, ts, thisMonth, lastMonth);
    var v := Visible(alerts, dismissed);
    AlertSeverities(products, ts, thisMonth, lastMonth);
    FilterMembers(alerts, NotDismissed(dismissed));
    forall k | 0 <= k < |v| ensures v[k].severity != LowSeverity {
      assert v[k] in alerts;
    }
    assert forall k :: 0 <= k < |v| ==> !HasSeverity(LowSeverity)(v[k]);
  }

  lemma AlertSeverities(products: seq<Product>, ts: seq<Txn>, thisMonth: Window, lastMonth: Window)
    ensures forall a :: a in Alerts(products, ts, thisMonth, lastMonth) ==> a.severity != LowSeverity
  {
    var r := Alerts(products, ts, thisMonth, lastMonth);
    var low := LowStockAlerts(products);
    forall a | a in r ensures a.severity != LowSeverity {
      var i :| 0 <= i < |r| && r[i] == a;
      if i < |low| {
        assert r[i] == r[..|low|][i] == low[i];
      }
    }
  }

  /** The severity label: "Critique", "Important", "Information". */
  function SeverityLabel(s: Severity): (l: string)
    ensures l == "Critique" <==> s == High
    ensures l == "Important" <==> s == Medium
    ensures l == "Information" <==> s == LowSeverity
  {
    match s
    case High => "Critique"
    case Medium => "Important"
    case LowSeverity => "Information"
  }

  /** The labels tell the severities apart. */
  lemma LabelsDistinct(s: Severity, t: Severity)
    ensures SeverityLabel(s) == SeverityLabel(t) <==> s == t
  {
  }
}
