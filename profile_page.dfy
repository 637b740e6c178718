/** The profile page's figures: counts over the signed-in user's complaints
    (absent while the store has not answered), the impact score, the
    "Locations" tile and the three badge progress values. */
module ProfilePage {
  import opened Types
  import opened Sequences

  /** The four stat tiles: Reports, Resolved, Impact Score, Locations. */
  datatype ProfileStats = ProfileStats(reports: nat, resolved: nat, impactScore: nat, locations: string)

  /** A badge with its progress in percent. */
  datatype Badge = Badge(title: string, description: string, progress: nat)

  const PointsPerReport: nat := 50

  predicate IsResolved(c: WasteComplaint) {
    c.status == Resolved
  }

  /** Number of complaints; 0 when the list is absent. */
  function TotalCount(data: Option<seq<WasteComplaint>>): (n: nat)
    ensures n == 0 <==> data.None? || data.value == []
  {
    if data.Some? then |data.value| else 0
  }

  /** Number of resolved complaints; 0 when the list is absent. */
  function ResolvedCount(data: Option<seq<WasteComplaint>>): (n: nat)
    ensures n <= TotalCount(data)
    ensures n == 0 <==> data.None? || forall c :: c in data.value ==> !IsResolved(c)
  {
    if data.Some? then
      var resolved := Filter(data.value, IsResolved);
      SubsequenceLength(resolved, data.value);
      assert resolved == [] <==> forall c :: c in data.value ==> !IsResolved(c);
      |resolved|
    else 0
  }

  /** The stat tiles. */
  function Stats(data: Option<seq<WasteComplaint>>): (s: ProfileStats)
    ensures s.reports == TotalCount(data) && s.resolved == ResolvedCount(data)
    ensures s.resolved <= s.reports
    ensures s.impactScore == PointsPerReport * s.reports
    ensures s.locations == "Madurai" <==> s.reports > 0
    ensures s.locations == "0" <==> s.reports == 0
    ensures data.None? ==> s == ProfileStats(0, 0, 0, "0")
  {
    var total := TotalCount(data);
    ProfileStats(total, ResolvedCount(data), total * PointsPerReport, if total > 0 then "Madurai" else "0")
  }

  /** "Waste Warrior" (reported 10 items): ten percent per report, capped at 100. */
  function WasteWarriorProgress(total: nat): (p: nat)
    ensures p <= 100
    ensures p == 100 <==> total >= 10
    ensures total < 10 ==> p == 10 * total
  {
    if total * 10 < 100 then total * 10 else 100
  }

  /** "Spotless Scout" (helped resolve 5 reports): twenty percent per resolved report, capped at 100. */
  function SpotlessScoutProgress(resolved: nat): (p: nat)
    ensures p <= 100
    ensures p == 100 <==> resolved >= 5
    ensures resolved < 5 ==> p == 20 * resolved
  {
    if resolved * 20 < 100 then resolved * 20 else 100
  }

  /** "Community Pillar": 30 once there is a report, else 0. */
  function CommunityPillarProgress(total: nat): (p: nat)
    ensures p <= 100
    ensures total > 0 ==> p == 30
    ensures total == 0 ==> p == 0
  {
    if total > 0 then 30 else 0
  }

  /** The badge panel. */
  function Badges(data: Option<seq<WasteComplaint>>): (bs: seq<Badge>)
    ensures |bs| == 3
    ensures bs[0].title == "Waste Warrior" && bs[0].progress == WasteWarriorProgress(TotalCount(data))
    ensures bs[1].title == "Spotless Scout" && bs[1].progress == SpotlessScoutProgress(ResolvedCount(data))
    ensures bs[2].title == "Community Pillar" && bs[2].progress == CommunityPillarProgress(TotalCount(data))
    ensures bs[0].description == "Reported 10 items" && bs[1].description == "Help resolved 5 reports"
    ensures bs[2].description == "Consistent reporter"
    ensures forall i :: 0 <= i < |bs| ==> bs[i].progress <= 100
    ensures data.None? ==> forall i :: 0 <= i < |bs| ==> bs[i].progress == 0
  {
    var total := TotalCount(data);
    var resolved := ResolvedCount(data);
    [ Badge("Waste Warrior", "Reported 10 items", WasteWarriorProgress(total)),
      Badge("Spotless Scout", "Help resolved 5 reports", SpotlessScoutProgress(resolved)),
      Badge("Community Pillar", "Consistent reporter", CommunityPillarProgress(total)) ]
  }

  /** More reports never lower a badge's progress. */
  lemma ProgressMonotone(a: nat, b: nat)
    requires a <= b
    ensures WasteWarriorProgress(a) <= WasteWarriorProgress(b)
    ensures SpotlessScoutProgress(a) <= SpotlessScoutProgress(b)
    ensures CommunityPillarProgress(a) <= CommunityPillarProgress(b)
  {
  }

  /** Scout progress never exceeds twice the Warrior progress, because a
      user has no more resolved reports than reports. */
  lemma ScoutWithinTwiceWarrior(data: Option<seq<WasteComplaint>>)
    ensures SpotlessScoutProgress(ResolvedCount(data)) <= 2 * WasteWarriorProgress(TotalCount(data))
  {
  }

  /** The counts as a fold over the list: appending a complaint adds one
      report, and one resolved report exactly when it is resolved. */
  lemma CountsAppend(xs: seq<WasteComplaint>, c: WasteComplaint)
    ensures ResolvedCount(Some(xs + [c])) == ResolvedCount(Some(xs)) + (if IsResolved(c) then 1 else 0)
    ensures TotalCount(Some(xs + [c])) == TotalCount(Some(xs)) + 1
  {
    FilterAppend(xs, c, IsResolved);
  }

  lemma NoComplaintsNoCounts()
    ensures ResolvedCount(Some([])) == 0 && TotalCount(Some([])) == 0
  {
  }
}
