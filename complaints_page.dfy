/** The public report list: a case-insensitive search over each complaint's
    summary and address, and the four tabs that show the result. */
module ComplaintsPage {
  import opened Types
  import opened Text
  import opened Sequences

  /** What a tab shows: a grid of cards, or a message instead of one. */
  datatype TabView = Cards(items: seq<WasteComplaint>) | EmptyState(message: string)

  const NoMatchesMessage: string := "No reports found matching your search."
  const NoResolvedMessage: string := "No recently resolved issues in this area."

  /** The search predicate: the lower-cased query occurs in the lower-cased
      summary or the lower-cased address. */
  predicate MatchesQuery(c: WasteComplaint, query: string): (m: bool)
    ensures m <==> IsSubstring(Lower(query), Lower(c.aiSummary)) ||
                   IsSubstring(Lower(query), Lower(c.location.address))
  {
    IncludesIsSubstring(Lower(c.aiSummary), Lower(query));
    IncludesIsSubstring(Lower(c.location.address), Lower(query));
    Includes(Lower(c.aiSummary), Lower(query)) || Includes(Lower(c.location.address), Lower(query))
  }

  /** The complaints the search keeps, in list order. */
  function FilteredComplaints(all: seq<WasteComplaint>, query: string): (r: seq<WasteComplaint>)
    ensures IsSubsequence(r, all)
    ensures forall c :: c in r <==> c in all && MatchesQuery(c, query)
    ensures forall c :: multiset(r)[c] == if MatchesQuery(c, query) then multiset(all)[c] else 0
  {
    Filter(all, c => MatchesQuery(c, query))
  }

  /** A complaint is kept exactly when the lower-cased query is a substring
      of its lower-cased summary or address. */
  lemma KeptIffSubstring(all: seq<WasteComplaint>, query: string, c: WasteComplaint)
    ensures c in FilteredComplaints(all, query) <==>
      c in all &&
      (IsSubstring(Lower(query), Lower(c.aiSummary)) ||
       IsSubstring(Lower(query), Lower(c.location.address)))
  {
  }

  /** An empty search keeps every complaint. */
  lemma EmptyQueryKeepsAll(all: seq<WasteComplaint>)
    ensures FilteredComplaints(all, "") == all
  {
    assert Lower("") == "";
    FilterKeepsAll(all, c => MatchesQuery(c, ""));
  }

  /** Searching ignores case: a query and its lower-cased form keep the same complaints. */
  lemma SearchIgnoresCase(all: seq<WasteComplaint>, query: string)
    ensures FilteredComplaints(all, query) == FilteredComplaints(all, Lower(query))
  {
    LowerIdempotent(query);
    FilterCongruent(all, c => MatchesQuery(c, query), c => MatchesQuery(c, Lower(query)));
  }

  /** The "All Reports" tab: the cards, or the no-match message when nothing is left. */
  function AllTab(all: seq<WasteComplaint>, query: string): (v: TabView)
    ensures v.EmptyState? <==> FilteredComplaints(all, query) == []
    ensures v.EmptyState? ==> v.message == NoMatchesMessage
    ensures v.Cards? ==> v.items == FilteredComplaints(all, query)
  {
    var filtered := FilteredComplaints(all, query);
    if |filtered| > 0 then Cards(filtered) else EmptyState(NoMatchesMessage)
  }

  /** The "Pending" tab: the kept complaints whose status is pending. */
  function PendingTab(all: seq<WasteComplaint>, query: string): (r: seq<WasteComplaint>)
    ensures IsSubsequence(r, FilteredComplaints(all, query))
    ensures forall c :: c in r <==> c in FilteredComplaints(all, query) && c.status == Pending
    ensures forall c :: multiset(r)[c] == if c.status == Pending then multiset(FilteredComplaints(all, query))[c] else 0
  {
    Filter(FilteredComplaints(all, query), (c: WasteComplaint) => c.status == Pending)
  }

  /** The "Action Taken" tab: the kept complaints whose status is in progress. */
  function ActionTakenTab(all: seq<WasteComplaint>, query: string): (r: seq<WasteComplaint>)
    ensures IsSubsequence(r, FilteredComplaints(all, query))
    ensures forall c :: c in r <==> c in FilteredComplaints(all, query) && c.status == InProgress
    ensures forall c :: multiset(r)[c] == if c.status == InProgress then multiset(FilteredComplaints(all, query))[c] else 0
  {
    Filter(FilteredComplaints(all, query), (c: WasteComplaint) => c.status == InProgress)
  }

  /** The "Resolved" tab shows a fixed message, whatever the list and the query. */
  function ResolvedTab(all: seq<WasteComplaint>, query: string): (v: TabView)
    ensures v.EmptyState?
  {
    EmptyState(NoResolvedMessage)
  }

  /** Both status tabs keep list order within the whole list, and no
      complaint appears on both. */
  lemma StatusTabsAreDisjointSublists(all: seq<WasteComplaint>, query: string)
    ensures IsSubsequence(PendingTab(all, query), all)
    ensures IsSubsequence(ActionTakenTab(all, query), all)
    ensures forall c :: c in PendingTab(all, query) ==> c !in ActionTakenTab(all, query)
  {
    var filtered := FilteredComplaints(all, query);
    SubsequenceTransitive(PendingTab(all, query), filtered, all);
    SubsequenceTransitive(ActionTakenTab(all, query), filtered, all);
  }

  /** Neither status tab can hold more cards than the "All Reports" tab. */
  lemma StatusTabsNoLongerThanAll(all: seq<WasteComplaint>, query: string)
    ensures |PendingTab(all, query)| <= |FilteredComplaints(all, query)| <= |all|
    ensures |ActionTakenTab(all, query)| <= |FilteredComplaints(all, query)|
  {
    SubsequenceLength(PendingTab(all, query), FilteredComplaints(all, query));
    SubsequenceLength(ActionTakenTab(all, query), FilteredComplaints(all, query));
    SubsequenceLength(FilteredComplaints(all, query), all);
  }

  /** The resolved tab ignores its inputs: even resolved complaints that
      match the search are not shown there. */
  lemma ResolvedTabIgnoresInputs(all1: seq<WasteComplaint>, q1: string, all2: seq<WasteComplaint>, q2: string)
    ensures ResolvedTab(all1, q1) == ResolvedTab(all2, q2) == EmptyState(NoResolvedMessage)
  {
  }
}
