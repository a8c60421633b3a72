/**
 * The alerts panel (`AlertsSystem`): a list of alerts and a list of alert
 * rules held as component state, handlers that install updated copies of
 * them, and the filter, statistics and day-band expressions computed from
 * them on every render.
 */
module Alerts {
  import opened Lists

  datatype AlertType = Deadline | Payment | Renewal | Compliance | Risk | Milestone
  datatype Priority = Low | Medium | High | Critical
  datatype AlertStatus = Active | Acknowledged | Resolved

  datatype Alert = Alert(
    id: string,
    title: string,
    description: string,
    alertType: AlertType,
    priority: Priority,
    contractName: string,
    dueDate: string,
    daysRemaining: int,
    status: AlertStatus,
    createdAt: string)

  datatype AlertRule = AlertRule(
    id: string,
    name: string,
    alertType: AlertType,
    description: string,
    enabled: bool,
    triggerDays: int)

  /** A filter drop-down: `'all'`, or one of its options. */
  datatype Criterion<T> = All | Only(value: T)

  predicate Admits<T(==)>(c: Criterion<T>, v: T) {
    c.All? || c.value == v
  }

  // ---------------------------------------------------------------------------
  // Day bands (`getDaysRemainingColor`)

  /** The four colours of `getDaysRemainingColor`, from most to least urgent. */
  datatype DaysBand = Overdue | ThisWeek | NextWeek | Later

  function DaysRemainingBand(days: int): (b: DaysBand)
    ensures b == Overdue <==> days <= 0
    ensures b == ThisWeek <==> 1 <= days <= 7
    ensures b == NextWeek <==> 8 <= days <= 14
    ensures b == Later <==> days > 14
  {
    if days <= 0 then Overdue
    else if days <= 7 then ThisWeek
    else if days <= 14 then NextWeek
    else Later
  }

  function Urgency(b: DaysBand): nat {
    match b
    case Overdue => 3
    case ThisWeek => 2
    case NextWeek => 1
    case Later => 0
  }

  /** More days remaining never makes an alert look more urgent. */
  lemma DaysBandMonotonic(earlier: int, later: int)
    requires earlier <= later
    ensures Urgency(DaysRemainingBand(later)) <= Urgency(DaysRemainingBand(earlier))
  {
  }

  // ---------------------------------------------------------------------------
  // Handlers

  /**
   * `prev.map(alert => alert.id === alertId ? { ...alert, status } : alert)`:
   * the alerts with that id get `status`, whatever they held before; every
   * other alert and every other field stay as they were.
   */
  function SetStatusWhere(alerts: seq<Alert>, alertId: string, status: AlertStatus): (r: seq<Alert>)
    ensures |r| == |alerts|
    ensures forall i :: 0 <= i < |alerts| && alerts[i].id == alertId ==> r[i] == alerts[i].(status := status)
    ensures forall i :: 0 <= i < |alerts| && alerts[i].id != alertId ==> r[i] == alerts[i]
  {
    if alerts == [] then []
    else
      var head := if alerts[0].id == alertId then alerts[0].(status := status) else alerts[0];
      [head] + SetStatusWhere(alerts[1..], alertId, status)
  }

  /**
   * The later of two status updates on the same id wins: resolving an
   * acknowledged alert gives the same list as resolving it directly, and
   * repeating an update changes nothing.
   */
  lemma SetStatusOverrides(alerts: seq<Alert>, alertId: string, first: AlertStatus, second: AlertStatus)
    ensures SetStatusWhere(SetStatusWhere(alerts, alertId, first), alertId, second) == SetStatusWhere(alerts, alertId, second)
  {
    var a := SetStatusWhere(SetStatusWhere(alerts, alertId, first), alertId, second);
    var b := SetStatusWhere(alerts, alertId, second);
    assert forall i :: 0 <= i < |a| ==> a[i] == b[i];
  }

  /** `prev.map(rule => rule.id === ruleId ? { ...rule, enabled: !rule.enabled } : rule)`. */
  function ToggleRule(rules: seq<AlertRule>, ruleId: string): (r: seq<AlertRule>)
    ensures |r| == |rules|
    ensures forall i :: 0 <= i < |rules| && rules[i].id == ruleId ==> r[i] == rules[i].(enabled := !rules[i].enabled)
    ensures forall i :: 0 <= i < |rules| && rules[i].id != ruleId ==> r[i] == rules[i]
  {
    if rules == [] then []
    else
      var head := if rules[0].id == ruleId then rules[0].(enabled := !rules[0].enabled) else rules[0];
      [head] + ToggleRule(rules[1..], ruleId)
  }

  /** Toggling the same rule twice restores the rule list. */
  lemma ToggleRuleTwice(rules: seq<AlertRule>, ruleId: string)
    ensures ToggleRule(ToggleRule(rules, ruleId), ruleId) == rules
  {
  }

  // ---------------------------------------------------------------------------
  // Derived views

  /** `filteredAlerts`: the alerts both drop-downs admit, in list order. */
  function FilteredAlerts(alerts: seq<Alert>, priority: Criterion<Priority>, alertType: Criterion<AlertType>): (r: seq<Alert>)
    ensures IsSubsequence(r, alerts)
    ensures forall a :: a in r ==> a in alerts && Admits(priority, a.priority) && Admits(alertType, a.alertType)
    ensures forall a :: a in alerts && Admits(priority, a.priority) && Admits(alertType, a.alertType) ==> a in r
  {
    Filter(alerts, (a: Alert) => Admits(priority, a.priority) && Admits(alertType, a.alertType))
  }

  /** With both drop-downs at `'all'` every alert is shown. */
  lemma FilterAllShowsEverything(alerts: seq<Alert>)
    ensures FilteredAlerts(alerts, All, All) == alerts
  {
    FilterKeepsAll(alerts, (a: Alert) => Admits(All, a.priority) && Admits(All, a.alertType));
  }

  /** Choosing a priority and a type is the same as filtering by one and then the other. */
  lemma FilterCriteriaCompose(alerts: seq<Alert>, priority: Criterion<Priority>, alertType: Criterion<AlertType>)
    ensures FilteredAlerts(FilteredAlerts(alerts, priority, All), All, alertType) == FilteredAlerts(alerts, priority, alertType)
  {
    var p := (a: Alert) => Admits(priority, a.priority) && Admits(All, a.alertType);
    var q := (a: Alert) => Admits(All, a.priority) && Admits(alertType, a.alertType);
    var pq := (a: Alert) => Admits(priority, a.priority) && Admits(alertType, a.alertType);
    FilterFilter(alerts, p, q, pq);
  }

  datatype AlertStats = AlertStats(total: nat, active: nat, critical: nat, overdue: nat)

  function IsActive(a: Alert): bool { a.status == Active }
  function IsCritical(a: Alert): bool { a.priority == Critical }
  function IsOverdue(a: Alert): bool { a.daysRemaining <= 0 }

  /**
   * `alertStats`: the number of alerts, and the number of positions holding an
   * active alert, a critical one, and one due today or earlier
   * (`daysRemaining <= 0`).
   */
  function Stats(alerts: seq<Alert>): (s: AlertStats)
    ensures s.total == |alerts|
    ensures s.active == |Positions(alerts, IsActive)|
    ensures s.critical == |Positions(alerts, IsCritical)|
    ensures s.overdue == |Positions(alerts, IsOverdue)|
    ensures s.active <= s.total && s.critical <= s.total && s.overdue <= s.total
    ensures s.overdue == 0 <==> forall a :: a in alerts ==> a.daysRemaining > 0
    ensures s.active == 0 <==> forall a :: a in alerts ==> a.status != Active
  {
    var active := Filter(alerts, IsActive);
    var overdue := Filter(alerts, IsOverdue);
    assert active != [] ==> active[0] in active;
    assert overdue != [] ==> overdue[0] in overdue;
    FilterCountsPositions(alerts, IsActive);
    FilterCountsPositions(alerts, IsCritical);
    FilterCountsPositions(alerts, IsOverdue);
    AlertStats(|alerts|, |active|, |Filter(alerts, IsCritical)|, |overdue|)
  }

  /**
   * Changing the status of alerts leaves the total, critical and overdue
   * counts as they were; acknowledging or resolving never raises the active
   * count.
   */
  lemma StatusChangeKeepsStats(alerts: seq<Alert>, alertId: string, status: AlertStatus)
    ensures var before := Stats(alerts);
      var after := Stats(SetStatusWhere(alerts, alertId, status));
      && after.total == before.total
      && after.critical == before.critical
      && after.overdue == before.overdue
      && (status != Active ==> after.active <= before.active)
  {
    StatusChangeCount(alerts, alertId, status, IsCritical);
    StatusChangeCount(alerts, alertId, status, IsOverdue);
    if status != Active {
      StatusChangeActive(alerts, alertId, status);
    }
  }

  /** A status change keeps the number of alerts a status-blind predicate selects. */
  lemma {:induction false} StatusChangeCount(alerts: seq<Alert>, alertId: string, status: AlertStatus, p: Alert -> bool)
    requires forall a: Alert :: p(a.(status := status)) == p(a)
    ensures |Filter(SetStatusWhere(alerts, alertId, status), p)| == |Filter(alerts, p)|
  {
    if alerts != [] {
      var r := SetStatusWhere(alerts, alertId, status);
      StatusChangeCount(alerts[1..], alertId, status, p);
      assert r[1..] == SetStatusWhere(alerts[1..], alertId, status);
    }
  }

  /** Moving alerts to a status other than `active` never adds an active alert. */
  lemma {:induction false} StatusChangeActive(alerts: seq<Alert>, alertId: string, status: AlertStatus)
    requires status != Active
    ensures |Filter(SetStatusWhere(alerts, alertId, status), IsActive)| <= |Filter(alerts, IsActive)|
  {
    if alerts != [] {
      var r := SetStatusWhere(alerts, alertId, status);
      StatusChangeActive(alerts[1..], alertId, status);
      assert r[1..] == SetStatusWhere(alerts[1..], alertId, status);
    }
  }

  // ---------------------------------------------------------------------------
  // The component's state

  class AlertsBoard {
    var alerts: seq<Alert>
    var alertRules: seq<AlertRule>
    var filterPriority: Criterion<Priority>
    var filterType: Criterion<AlertType>

    /** The initial state: the given lists, both drop-downs at `'all'`. */
    constructor(initialAlerts: seq<Alert>, initialRules: seq<AlertRule>)
      ensures alerts == initialAlerts && alertRules == initialRules
      ensures filterPriority == All && filterType == All
    {
      alerts := initialAlerts;
      alertRules := initialRules;
      filterPriority := All;
      filterType := All;
    }

    /** The alerts on screen. */
    function Visible(): (r: seq<Alert>)
      reads this
      ensures IsSubsequence(r, alerts)
    {
      FilteredAlerts(alerts, filterPriority, filterType)
    }

    /** `handleAcknowledgeAlert`. */
    method AcknowledgeAlert(alertId: string)
      modifies this
      ensures alerts == SetStatusWhere(old(alerts), alertId, Acknowledged)
      ensures alertRules == old(alertRules)
      ensures filterPriority == old(filterPriority) && filterType == old(filterType)
    {
      alerts := SetStatusWhere(alerts, alertId, Acknowledged);
    }

    /** `handleResolveAlert`. */
    method ResolveAlert(alertId: string)
      modifies this
      ensures alerts == SetStatusWhere(old(alerts), alertId, Resolved)
      ensures alertRules == old(alertRules)
      ensures filterPriority == old(filterPriority) && filterType == old(filterType)
    {
      alerts := SetStatusWhere(alerts, alertId, Resolved);
    }

    /** `toggleAlertRule`. */
    method ToggleAlertRule(ruleId: string)
      modifies this
      ensures alertRules == ToggleRule(old(alertRules), ruleId)
      ensures alerts == old(alerts)
      ensures filterPriority == old(filterPriority) && filterType == old(filterType)
    {
      alertRules := ToggleRule(alertRules, ruleId);
    }

    /** The two drop-downs' `onChange`. */
    method SetFilters(priority: Criterion<Priority>, alertType: Criterion<AlertType>)
      modifies this
      ensures filterPriority == priority && filterType == alertType
      ensures alerts == old(alerts) && alertRules == old(alertRules)
    {
      filterPriority := priority;
      filterType := alertType;
    }
  }
}
