/** The allocation reconciler run after an expense is recorded
    (index.py, Record Expense): the first allocation row, in sheet order,
    for the expense's engineer and site that still has a positive balance is
    debited by the expense amount, with no floor at zero. */
module Reconciler {
  import opened Rows

  datatype Option<T> = None | Some(value: T)

  /** An allocation row the reconciler may debit for this engineer and site. */
  predicate Eligible(r: Row, engineerId: string, siteId: string)
  {
    r.Allocation? && r.engineerId == engineerId && r.siteId == siteId && r.balanceRemaining > 0
  }

  /** Row i is eligible and no row before it is. */
  ghost predicate IsFirstFit(rows: seq<Row>, engineerId: string, siteId: string, i: int)
  {
    && 0 <= i < |rows|
    && Eligible(rows[i], engineerId, siteId)
    && forall j :: 0 <= j < i ==> !Eligible(rows[j], engineerId, siteId)
  }

  /** The position of the first eligible row, if there is one. */
  function FirstFit(rows: seq<Row>, engineerId: string, siteId: string): (k: Option<nat>)
    ensures k.Some? ==> IsFirstFit(rows, engineerId, siteId, k.value)
    ensures k.None? ==> forall j :: 0 <= j < |rows| ==> !Eligible(rows[j], engineerId, siteId)
  {
    if rows == [] then None
    else if Eligible(rows[0], engineerId, siteId) then Some(0)
    else match FirstFit(rows[1..], engineerId, siteId)
      case None => None
      case Some(i) => Some(i + 1)
  }

  /** At most one row is the first fit. */
  lemma FirstFitUnique(rows: seq<Row>, engineerId: string, siteId: string, i: int, j: int)
    requires IsFirstFit(rows, engineerId, siteId, i) && IsFirstFit(rows, engineerId, siteId, j)
    ensures i == j
  {
  }

  /** The row with its remaining balance lowered by amount. */
  function Charge(r: Row, amount: int): Row
    requires r.Allocation?
  {
    r.(balanceRemaining := r.balanceRemaining - amount)
  }

  /** The allocation table after the reconciler has charged an expense of amount. */
  function Debit(rows: seq<Row>, engineerId: string, siteId: string, amount: int): seq<Row>
  {
    match FirstFit(rows, engineerId, siteId)
    case None => rows
    case Some(i) => rows[i := Charge(rows[i], amount)]
  }

  /** Exactly the first eligible row is charged, by the full amount, and every
      other row is left as it was. */
  lemma DebitChargesFirstFit(rows: seq<Row>, engineerId: string, siteId: string, amount: int, i: int)
    requires IsFirstFit(rows, engineerId, siteId, i)
    ensures |Debit(rows, engineerId, siteId, amount)| == |rows|
    ensures Debit(rows, engineerId, siteId, amount)[i] == Charge(rows[i], amount)
    ensures forall j :: 0 <= j < |rows| && j != i ==> Debit(rows, engineerId, siteId, amount)[j] == rows[j]
  {
    var k := FirstFit(rows, engineerId, siteId);
    if k.Some? {
      FirstFitUnique(rows, engineerId, siteId, i, k.value);
    }
  }

  /** With no eligible row the allocation table is unchanged. */
  lemma DebitWithoutMatch(rows: seq<Row>, engineerId: string, siteId: string, amount: int)
    requires forall j :: 0 <= j < |rows| ==> !Eligible(rows[j], engineerId, siteId)
    ensures Debit(rows, engineerId, siteId, amount) == rows
  {
  }

  /** Charging a non-negative expense keeps every balance within its grant. */
  lemma DebitKeepsWithinGrant(rows: seq<Row>, engineerId: string, siteId: string, amount: int)
    requires amount >= 0
    requires forall j :: 0 <= j < |rows| ==> WithinGrant(rows[j])
    ensures forall j :: 0 <= j < |Debit(rows, engineerId, siteId, amount)| ==>
      WithinGrant(Debit(rows, engineerId, siteId, amount)[j])
  {
  }

  /** One recorded expense as the reconciler sees it: who spent how much where. */
  datatype Spend = Spend(engineerId: string, siteId: string, amount: int)

  /** The allocation table after the reconciler has handled each spend in turn. */
  function DebitAll(rows: seq<Row>, spends: seq<Spend>): seq<Row>
    decreases |spends|
  {
    if spends == [] then rows
    else
      var last := spends[|spends| - 1];
      Debit(DebitAll(rows, spends[..|spends| - 1]), last.engineerId, last.siteId, last.amount)
  }

  /** The total of the spends whose first fit, at the time each was handled, was row i. */
  function RoutedTo(rows: seq<Row>, spends: seq<Spend>, i: int): int
    decreases |spends|
  {
    if spends == [] then 0
    else
      var init, last := spends[..|spends| - 1], spends[|spends| - 1];
      var k := FirstFit(DebitAll(rows, init), last.engineerId, last.siteId);
      RoutedTo(rows, init, i) + (if k.Some? && k.value == i then last.amount else 0)
  }

  /** After any number of recorded expenses, every allocation row has lost
      exactly the amounts routed to it and nothing else has changed; a row
      created with its whole grant left holds the grant minus those amounts. */
  lemma {:induction false} DebitAllAccounting(rows: seq<Row>, spends: seq<Spend>)
    ensures |DebitAll(rows, spends)| == |rows|
    ensures forall i :: 0 <= i < |rows| ==>
      DebitAll(rows, spends)[i] == if rows[i].Allocation? then Charge(rows[i], RoutedTo(rows, spends, i)) else rows[i]
    ensures forall i :: 0 <= i < |rows| && rows[i].Allocation? && AsCreated(rows[i]) ==>
      DebitAll(rows, spends)[i].Allocation? &&
      DebitAll(rows, spends)[i].balanceRemaining == rows[i].amountAllocated - RoutedTo(rows, spends, i)
    decreases |spends|
  {
    if spends != [] {
      var init, last := spends[..|spends| - 1], spends[|spends| - 1];
      DebitAllAccounting(rows, init);
      var prior := DebitAll(rows, init);
      var k := FirstFit(prior, last.engineerId, last.siteId);
      if k.Some? {
        DebitChargesFirstFit(prior, last.engineerId, last.siteId, last.amount, k.value);
      }
    }
  }

  /** Nothing routed to a row is negative when no spend is. */
  lemma {:induction false} RoutedNonNegative(rows: seq<Row>, spends: seq<Spend>, i: int)
    requires forall j :: 0 <= j < |spends| ==> spends[j].amount >= 0
    ensures RoutedTo(rows, spends, i) >= 0
    decreases |spends|
  {
    if spends != [] {
      RoutedNonNegative(rows, spends[..|spends| - 1], i);
    }
  }

  /** With non-negative expense amounts no balance ever rises, and no grant changes. */
  lemma DebitAllNeverRaises(rows: seq<Row>, spends: seq<Spend>)
    requires forall j :: 0 <= j < |spends| ==> spends[j].amount >= 0
    ensures |DebitAll(rows, spends)| == |rows|
    ensures forall i :: 0 <= i < |rows| && rows[i].Allocation? ==>
      && DebitAll(rows, spends)[i].Allocation?
      && DebitAll(rows, spends)[i].balanceRemaining <= rows[i].balanceRemaining
      && DebitAll(rows, spends)[i].amountAllocated == rows[i].amountAllocated
  {
    DebitAllAccounting(rows, spends);
    forall i | 0 <= i < |rows| ensures RoutedTo(rows, spends, i) >= 0 {
      RoutedNonNegative(rows, spends, i);
    }
  }

  /** A grant of 1000.00 followed by an expense of 300.00 for the same
      engineer and site leaves 700.00 on the grant. */
  lemma SingleGrantScenario()
    ensures
      var a := NewAllocation("a1", "E1", "S1", 100000, "2024-01-01", "");
      Debit([a], "E1", "S1", 30000) == [a.(balanceRemaining := 70000)]
  {
    var a := NewAllocation("a1", "E1", "S1", 100000, "2024-01-01", "");
    assert IsFirstFit([a], "E1", "S1", 0);
    DebitChargesFirstFit([a], "E1", "S1", 30000, 0);
  }

  /** Two grants of 500.00 to the same engineer and site, then an expense of
      600.00: the first grant goes to -100.00 and the second keeps 500.00. */
  lemma NoFloorScenario()
    ensures
      var a1 := NewAllocation("a1", "E1", "S1", 50000, "2024-01-01", "");
      var a2 := NewAllocation("a2", "E1", "S1", 50000, "2024-01-01", "");
      Debit([a1, a2], "E1", "S1", 60000) == [a1.(balanceRemaining := -10000), a2]
  {
    var a1 := NewAllocation("a1", "E1", "S1", 50000, "2024-01-01", "");
    var a2 := NewAllocation("a2", "E1", "S1", 50000, "2024-01-01", "");
    assert IsFirstFit([a1, a2], "E1", "S1", 0);
    DebitChargesFirstFit([a1, a2], "E1", "S1", 60000, 0);
  }
}
