/** The sustainability panel: debris alerts, mission lifecycle and regulatory compliance.
    Everything here is a total classification over fixed records. */
module Sustainability {
  import opened Badge

  datatype Risk = Low | Medium | High
  datatype MissionStatus = Active | Planned | Deorbited

  datatype DebrisAlert = DebrisAlert(
    id: string, object: string, missDistance: real, time: string,
    risk: Risk, maneuverRequired: bool)

  datatype Mission = Mission(
    id: string, name: string, launchDate: string, deorbitDate: string,
    status: MissionStatus, complianceScore: real)

  datatype ComplianceItem = ComplianceItem(name: string, status: string, expires: string, score: real)

  const DebrisAlerts: seq<DebrisAlert> := [
    DebrisAlert("1", "Cosmos 1408 Fragment", 1.2, "2024-10-05 14:23:00", Medium, true),
    DebrisAlert("2", "Unknown Debris", 2.8, "2024-10-05 18:45:00", Low, false),
    DebrisAlert("3", "Fengyun-1C Fragment", 0.9, "2024-10-06 02:15:00", High, true)
  ]

  const Missions: seq<Mission> := [
    Mission("1", "NSS Pharma Lab Alpha", "2023-03-15", "2026-03-15", Active, 96.0),
    Mission("2", "NSS Materials Research", "2023-08-22", "2026-08-22", Active, 94.0),
    Mission("3", "NSS Data Relay", "2022-11-10", "2025-11-10", Active, 98.0)
  ]

  const ComplianceItems: seq<ComplianceItem> := [
    ComplianceItem("FCC License", "Valid", "2025-12-15", 100.0),
    ComplianceItem("FAA Launch License", "Valid", "2024-08-30", 95.0),
    ComplianceItem("NOAA Remote Sensing", "Valid", "2026-01-22", 98.0),
    ComplianceItem("UN Registration", "Complete", "N/A", 100.0),
    ComplianceItem("ITU Coordination", "In Progress", "2024-11-15", 75.0)
  ]

  /** Badge colour of a debris alert. */
  function RiskColor(risk: Risk): (v: Variant)
    ensures risk == Low <==> v == Success
    ensures risk == Medium <==> v == Warning
    ensures risk == High <==> v == Destructive
  {
    match risk
    case Low => Success
    case Medium => Warning
    case High => Destructive
  }

  lemma RiskColorInjective(a: Risk, b: Risk)
    ensures RiskColor(a) == RiskColor(b) ==> a == b
  {
  }

  /** Badge colour of a mission's lifecycle status. */
  function StatusColor(status: MissionStatus): (v: Variant)
    ensures status == Active <==> v == Success
    ensures status == Planned <==> v == Info
    ensures status == Deorbited <==> v == Secondary
  {
    match status
    case Active => Success
    case Planned => Info
    case Deorbited => Secondary
  }

  lemma StatusColorInjective(a: MissionStatus, b: MissionStatus)
    ensures StatusColor(a) == StatusColor(b) ==> a == b
  {
  }

  /** Badge of a compliance item: three tiers by score. */
  function ComplianceBadge(score: real): (v: Variant)
    ensures v == Default <==> score >= 95.0
    ensures v == Secondary <==> 80.0 <= score < 95.0
    ensures v == Destructive <==> score < 80.0
  {
    if score >= 95.0 then Default else if score >= 80.0 then Secondary else Destructive
  }

  /** Severity order of the compliance tiers, worst first. */
  function TierRank(v: Variant): nat
  {
    match v
    case Destructive => 0
    case Secondary => 1
    case _ => 2
  }

  /** A higher score never gets a worse tier. */
  lemma ComplianceBadgeMonotone(s1: real, s2: real)
    requires s1 <= s2
    ensures TierRank(ComplianceBadge(s1)) <= TierRank(ComplianceBadge(s2))
  {
  }

  /** Of the five listed licences the first four are in the top tier and the ITU
      coordination, at 75, is flagged. */
  lemma SampleComplianceBadges()
    ensures forall i | 0 <= i < 4 :: ComplianceBadge(ComplianceItems[i].score) == Default
    ensures ComplianceBadge(ComplianceItems[4].score) == Destructive
    ensures ExpiryLabel(ComplianceItems[3].expires) == "Permanent"
  {
  }

  /** Every sample mission is active, so each status badge is green, and each score
      fits the 0 to 100 range of its progress bar. */
  lemma SampleMissionsActive()
    ensures forall m | m in Missions :: StatusColor(m.status) == Success
    ensures forall m | m in Missions :: 0.0 <= m.complianceScore <= 100.0
  {
  }

  /** The line under a compliance item's name. */
  function ExpiryLabel(expires: string): (text: string)
    ensures expires == "N/A" ==> text == "Permanent"
    ensures expires != "N/A" ==> text == "Expires: " + expires
  {
    if expires != "N/A" then "Expires: " + expires else "Permanent"
  }

  /** Distinct expiry dates are told apart by their labels, and no date looks permanent. */
  lemma ExpiryLabelInjective(a: string, b: string)
    requires a != "N/A" && b != "N/A" && a != b
    ensures ExpiryLabel(a) != ExpiryLabel(b)
    ensures ExpiryLabel(a) != "Permanent"
  {
    var p := "Expires: ";
    assert ExpiryLabel(a)[|p|..] == a;
    assert ExpiryLabel(b)[|p|..] == b;
    assert |ExpiryLabel(a)| > |"Permanent"| || ExpiryLabel(a)[0] != "Permanent"[0];
  }

  /** The alerts shown on the overview tab: `slice(0, 3)`. */
  function OverviewAlerts(alerts: seq<DebrisAlert>): (shown: seq<DebrisAlert>)
    ensures |shown| == if |alerts| < 3 then |alerts| else 3
    ensures forall i :: 0 <= i < |shown| ==> shown[i] == alerts[i]
  {
    if |alerts| < 3 then alerts else alerts[..3]
  }

  lemma OverviewShowsAllSampleAlerts()
    ensures OverviewAlerts(DebrisAlerts) == DebrisAlerts
  {
  }

  /** A button at the foot of an alert card. */
  datatype CardButton = CardButton(caption: string, variant: Variant)

  /** The buttons on an alert's card, left to right. The overview card has only the
      outlined "Plan Maneuver" button, and only when a manoeuvre is required; the card in
      the alerts tab always has an outlined "Details" button, followed by a filled
      "Plan Maneuver" button when a manoeuvre is required. */
  function AlertCardButtons(alert: DebrisAlert, inAlertsTab: bool): (bs: seq<CardButton>)
    ensures (exists b :: b in bs && b.caption == "Plan Maneuver") <==> alert.maneuverRequired
    ensures (exists b :: b in bs && b.caption == "Details") <==> inAlertsTab
    ensures forall b | b in bs :: b.caption == "Details" || b.caption == "Plan Maneuver"
    ensures forall b | b in bs && b.caption == "Plan Maneuver" ::
      b.variant == if inAlertsTab then Default else Outline
    ensures forall b | b in bs && b.caption == "Details" :: b.variant == Outline
    ensures inAlertsTab ==> |bs| > 0 && bs[0].caption == "Details"
    ensures |bs| == (if inAlertsTab then 1 else 0) + (if alert.maneuverRequired then 1 else 0)
  {
    var plan := if alert.maneuverRequired
      then [CardButton("Plan Maneuver", if inAlertsTab then Default else Outline)] else [];
    if inAlertsTab then [CardButton("Details", Outline)] + plan else plan
  }

  /** For any alert list, the overview card of each alert it shows offers a manoeuvre
      exactly when the same alert's card in the alerts tab does, and the alerts-tab card
      has exactly one button more. */
  lemma OverviewCardsAgreeWithAlertsTab(alerts: seq<DebrisAlert>)
    ensures forall i | 0 <= i < |OverviewAlerts(alerts)| ::
      (exists b :: b in AlertCardButtons(OverviewAlerts(alerts)[i], false) && b.caption == "Plan Maneuver")
      <==> (exists b :: b in AlertCardButtons(alerts[i], true) && b.caption == "Plan Maneuver")
    ensures forall i | 0 <= i < |OverviewAlerts(alerts)| ::
      |AlertCardButtons(alerts[i], true)| == |AlertCardButtons(OverviewAlerts(alerts)[i], false)| + 1
  {
  }

  /** In the sample data the first and third alerts ask for a manoeuvre, the second not. */
  lemma SampleManeuverButtons()
    ensures |AlertCardButtons(DebrisAlerts[0], false)| == 1
    ensures AlertCardButtons(DebrisAlerts[1], false) == []
    ensures |AlertCardButtons(DebrisAlerts[2], false)| == 1
    ensures |AlertCardButtons(DebrisAlerts[1], true)| == 1
  {
  }

  const DebrisDotCount: nat := 12

  /** Colour of the i-th debris dot on the orbital map. */
  function DebrisDotColor(i: nat): (v: Variant)
    ensures i < 3 ==> v == Destructive
    ensures 3 <= i < 6 ==> v == Warning
    ensures 6 <= i ==> v == Success
  {
    if i < 3 then Destructive else if i < 6 then Warning else Success
  }

  /** The colours of all dots on the map, in order. */
  function DebrisDots(): (dots: seq<Variant>)
    ensures |dots| == DebrisDotCount
    ensures forall i :: 0 <= i < |dots| ==> dots[i] == DebrisDotColor(i)
  {
    seq(DebrisDotCount, (i: int) requires 0 <= i => DebrisDotColor(i))
  }

  /** Of the twelve dots, three are destructive, three warning and six success. */
  lemma DebrisDotCounts()
    ensures |set i | 0 <= i < DebrisDotCount && DebrisDots()[i] == Destructive| == 3
    ensures |set i | 0 <= i < DebrisDotCount && DebrisDots()[i] == Warning| == 3
    ensures |set i | 0 <= i < DebrisDotCount && DebrisDots()[i] == Success| == 6
  {
    var dots := DebrisDots();
    assert (set i | 0 <= i < DebrisDotCount && dots[i] == Destructive) == {0, 1, 2};
    assert (set i | 0 <= i < DebrisDotCount && dots[i] == Warning) == {3, 4, 5};
    assert (set i | 0 <= i < DebrisDotCount && dots[i] == Success) == {6, 7, 8, 9, 10, 11};
  }
}
