/** The dashboard rollups (index.py, Dashboard): expense amounts summed per
    site and per engineer, allocation amounts and balances summed per
    engineer, each left-joined onto the site or engineer list with a missing
    sum read as 0. */
module Dashboard {
  import opened Rows
  import Approvals
  import Reconciler

  /** The id column a rollup groups on. */
  datatype Key = BySite | ByEngineer

  /** The money column a rollup sums. */
  datatype Measure = Amount | AmountAllocated | BalanceRemaining

  /** The row's key column holds id. Rows without that column belong to no group. */
  predicate InGroup(r: Row, key: Key, id: string)
  {
    match key
    case BySite => (r.Site? || r.Assignment? || r.Allocation? || r.Expense?) && r.siteId == id
    case ByEngineer => (r.Engineer? || r.Assignment? || r.Allocation? || r.Expense?) && r.engineerId == id
  }

  /** What the row adds to the sum for group id: its measure cell, or 0 when it
      is outside the group or has no such cell. */
  function Contribution(r: Row, key: Key, measure: Measure, id: string): int
  {
    if !InGroup(r, key, id) then 0
    else match measure
      case Amount => if r.Expense? then r.amount else 0
      case AmountAllocated => if r.Allocation? then r.amountAllocated else 0
      case BalanceRemaining => if r.Allocation? then r.balanceRemaining else 0
  }

  /** The sum of the measure over the rows of group id, 0 for a group with no rows. */
  function GroupSum(rows: seq<Row>, key: Key, measure: Measure, id: string): (s: int)
    ensures (forall j :: 0 <= j < |rows| ==> !InGroup(rows[j], key, id)) ==> s == 0
  {
    if rows == [] then 0
    else Contribution(rows[0], key, measure, id) + GroupSum(rows[1..], key, measure, id)
  }

  /** A row added at the end adds its own contribution and nothing else. */
  lemma {:induction false} GroupSumAppend(rows: seq<Row>, x: Row, key: Key, measure: Measure, id: string)
    ensures GroupSum(rows + [x], key, measure, id) == GroupSum(rows, key, measure, id) + Contribution(x, key, measure, id)
  {
    if rows != [] {
      assert (rows + [x])[1..] == rows[1..] + [x];
      GroupSumAppend(rows[1..], x, key, measure, id);
    }
  }

  /** Replacing one row changes the sum by the difference of the two rows' contributions. */
  lemma {:induction false} GroupSumUpdate(rows: seq<Row>, i: int, x: Row, key: Key, measure: Measure, id: string)
    requires 0 <= i < |rows|
    ensures GroupSum(rows[i := x], key, measure, id)
         == GroupSum(rows, key, measure, id) - Contribution(rows[i], key, measure, id) + Contribution(x, key, measure, id)
  {
    if i > 0 {
      assert rows[i := x][1..] == rows[1..][i - 1 := x];
      GroupSumUpdate(rows[1..], i - 1, x, key, measure, id);
    } else {
      assert rows[i := x][1..] == rows[1..];
    }
  }

  /** Two tables whose rows contribute the same, position by position, have the same sum. */
  lemma {:induction false} GroupSumPointwise(a: seq<Row>, b: seq<Row>, key: Key, measure: Measure, id: string)
    requires |a| == |b|
    requires forall j :: 0 <= j < |a| ==> Contribution(a[j], key, measure, id) == Contribution(b[j], key, measure, id)
    ensures GroupSum(a, key, measure, id) == GroupSum(b, key, measure, id)
  {
    if a != [] {
      GroupSumPointwise(a[1..], b[1..], key, measure, id);
    }
  }

  /** One line of the site summary. */
  datatype SiteLine = SiteLine(siteId: string, siteName: string, location: string, status: string, totalSpent: int)

  /** One line of the engineer summary. */
  datatype EngineerLine = EngineerLine(engineerId: string, name: string, role: string,
                                       totalAlloc: int, totalSpent: int, balance: int)

  /** The site list holds site rows only. */
  predicate AllSites(sites: seq<Row>)
  {
    forall i :: 0 <= i < |sites| ==> sites[i].Site?
  }

  /** The engineer list holds engineer rows only. */
  predicate AllEngineers(engineers: seq<Row>)
  {
    forall i :: 0 <= i < |engineers| ==> engineers[i].Engineer?
  }

  /** The site summary: one line per site, in list order, with the total of
      every expense recorded against it, approved or not. */
  function SiteSummary(sites: seq<Row>, expenses: seq<Row>): (lines: seq<SiteLine>)
    requires AllSites(sites)
    ensures |lines| == |sites|
    ensures forall i :: 0 <= i < |sites| ==>
      var s := sites[i];
      lines[i] == SiteLine(s.siteId, s.siteName, s.location, s.status, GroupSum(expenses, BySite, Amount, s.siteId))
  {
    if sites == [] then []
    else
      var s := sites[0];
      [SiteLine(s.siteId, s.siteName, s.location, s.status, GroupSum(expenses, BySite, Amount, s.siteId))]
        + SiteSummary(sites[1..], expenses)
  }

  /** The engineer summary: one line per engineer, in list order, with the
      amounts granted to them, the expenses recorded by them and the balance
      left on their grants. */
  function EngineerSummary(engineers: seq<Row>, expenses: seq<Row>, allocations: seq<Row>): (lines: seq<EngineerLine>)
    requires AllEngineers(engineers)
    ensures |lines| == |engineers|
    ensures forall i :: 0 <= i < |engineers| ==>
      var e := engineers[i];
      lines[i] == EngineerLine(e.engineerId, e.name, e.role,
                               GroupSum(allocations, ByEngineer, AmountAllocated, e.engineerId),
                               GroupSum(expenses, ByEngineer, Amount, e.engineerId),
                               GroupSum(allocations, ByEngineer, BalanceRemaining, e.engineerId))
  {
    if engineers == [] then []
    else
      var e := engineers[0];
      [EngineerLine(e.engineerId, e.name, e.role,
                    GroupSum(allocations, ByEngineer, AmountAllocated, e.engineerId),
                    GroupSum(expenses, ByEngineer, Amount, e.engineerId),
                    GroupSum(allocations, ByEngineer, BalanceRemaining, e.engineerId))]
        + EngineerSummary(engineers[1..], expenses, allocations)
  }

  /** With no expenses and no allocations every listed site and engineer shows zero. */
  lemma EmptyTablesGiveZeros(sites: seq<Row>, engineers: seq<Row>)
    requires AllSites(sites) && AllEngineers(engineers)
    ensures forall i :: 0 <= i < |sites| ==> SiteSummary(sites, [])[i].totalSpent == 0
    ensures forall i :: 0 <= i < |engineers| ==>
      var line := EngineerSummary(engineers, [], [])[i];
      line.totalAlloc == 0 && line.totalSpent == 0 && line.balance == 0
  {
  }

  /** An expense recorded for a site adds its amount to that site's line and to
      no other line. */
  lemma RecordedExpenseCounted(sites: seq<Row>, expenses: seq<Row>, x: Row)
    requires AllSites(sites) && x.Expense?
    ensures forall i :: 0 <= i < |sites| ==>
      SiteSummary(sites, expenses + [x])[i].totalSpent
        == SiteSummary(sites, expenses)[i].totalSpent + (if sites[i].siteId == x.siteId then x.amount else 0)
  {
    forall i | 0 <= i < |sites| {
      GroupSumAppend(expenses, x, BySite, Amount, sites[i].siteId);
    }
  }

  /** A row whose site id is on no line of the list changes no line. */
  lemma UnlistedSiteIgnored(sites: seq<Row>, expenses: seq<Row>, x: Row)
    requires AllSites(sites)
    requires forall i :: 0 <= i < |sites| ==> !InGroup(x, BySite, sites[i].siteId)
    ensures SiteSummary(sites, expenses + [x]) == SiteSummary(sites, expenses)
  {
    forall i | 0 <= i < |sites| {
      GroupSumAppend(expenses, x, BySite, Amount, sites[i].siteId);
    }
  }

  /** A row whose engineer id is on no line of the list changes no line. */
  lemma UnlistedEngineerIgnored(engineers: seq<Row>, expenses: seq<Row>, allocations: seq<Row>, x: Row)
    requires AllEngineers(engineers)
    requires forall i :: 0 <= i < |engineers| ==> !InGroup(x, ByEngineer, engineers[i].engineerId)
    ensures EngineerSummary(engineers, expenses + [x], allocations) == EngineerSummary(engineers, expenses, allocations)
    ensures EngineerSummary(engineers, expenses, allocations + [x]) == EngineerSummary(engineers, expenses, allocations)
  {
    forall i | 0 <= i < |engineers|
      ensures GroupSum(expenses + [x], ByEngineer, Amount, engineers[i].engineerId)
           == GroupSum(expenses, ByEngineer, Amount, engineers[i].engineerId)
    {
      GroupSumAppend(expenses, x, ByEngineer, Amount, engineers[i].engineerId);
    }
    forall i, m: Measure | 0 <= i < |engineers|
      ensures GroupSum(allocations + [x], ByEngineer, m, engineers[i].engineerId)
           == GroupSum(allocations, ByEngineer, m, engineers[i].engineerId)
    {
      GroupSumAppend(allocations, x, ByEngineer, m, engineers[i].engineerId);
    }
  }

  /** Approving or rejecting an expense leaves both summaries as they were:
      expenses are summed whatever their approval state. */
  lemma ReviewKeepsRollups(sites: seq<Row>, engineers: seq<Row>, expenses: seq<Row>, allocations: seq<Row>,
                           expenseId: string, approved: bool, user: string)
    requires AllSites(sites) && AllEngineers(engineers)
    ensures SiteSummary(sites, Approvals.MarkReviewed(expenses, expenseId, approved, user))
         == SiteSummary(sites, expenses)
    ensures EngineerSummary(engineers, Approvals.MarkReviewed(expenses, expenseId, approved, user), allocations)
         == EngineerSummary(engineers, expenses, allocations)
  {
    var after := Approvals.MarkReviewed(expenses, expenseId, approved, user);
    forall id: string, key: Key {
      GroupSumPointwise(after, expenses, key, Amount, id);
    }
  }

  /** The reconciler's debit lowers the charged engineer's balance line by the
      amount, when some allocation was eligible, and changes nothing else. */
  lemma DebitLowersBalance(engineers: seq<Row>, expenses: seq<Row>, allocations: seq<Row>,
                           engineerId: string, siteId: string, amount: int)
    requires AllEngineers(engineers)
    ensures
      var hit := exists j :: 0 <= j < |allocations| && Reconciler.Eligible(allocations[j], engineerId, siteId);
      var before := EngineerSummary(engineers, expenses, allocations);
      var after := EngineerSummary(engineers, expenses, Reconciler.Debit(allocations, engineerId, siteId, amount));
      forall i :: 0 <= i < |engineers| ==>
        && after[i].totalAlloc == before[i].totalAlloc
        && after[i].totalSpent == before[i].totalSpent
        && after[i].balance == before[i].balance - (if hit && engineers[i].engineerId == engineerId then amount else 0)
  {
    var debited := Reconciler.Debit(allocations, engineerId, siteId, amount);
    match Reconciler.FirstFit(allocations, engineerId, siteId)
    case None =>
    case Some(k) =>
      var charged := Reconciler.Charge(allocations[k], amount);
      assert debited == allocations[k := charged];
      assert Reconciler.Eligible(allocations[k], engineerId, siteId);
      forall i, m: Measure | 0 <= i < |engineers|
        ensures GroupSum(debited, ByEngineer, m, engineers[i].engineerId)
             == GroupSum(allocations, ByEngineer, m, engineers[i].engineerId)
              - Contribution(allocations[k], ByEngineer, m, engineers[i].engineerId)
              + Contribution(charged, ByEngineer, m, engineers[i].engineerId)
      {
        GroupSumUpdate(allocations, k, charged, ByEngineer, m, engineers[i].engineerId);
      }
  }
}
