/** The approvals page (index.py, Approvals): the pending view and the
    approve and reject buttons, which record the decision and the acting user
    on every expense row carrying the chosen expense id. */
module Approvals {
  import opened Rows

  /** A row the approve or reject button for expenseId updates. */
  predicate Targets(r: Row, expenseId: string)
  {
    r.Expense? && r.expenseId == expenseId
  }

  /** The expense row with a decision recorded by user. */
  function Review(r: Row, approved: bool, user: string): Row
    requires r.Expense?
  {
    r.(approved := approved, approvedBy := user)
  }

  /** The expense table after approving (approved = true) or rejecting
      (approved = false) expenseId as user. */
  function MarkReviewed(rows: seq<Row>, expenseId: string, approved: bool, user: string): (r: seq<Row>)
    ensures |r| == |rows|
    ensures forall i :: 0 <= i < |rows| ==>
      r[i] == if Targets(rows[i], expenseId) then Review(rows[i], approved, user) else rows[i]
  {
    if rows == [] then []
    else
      var head := if Targets(rows[0], expenseId) then Review(rows[0], approved, user) else rows[0];
      [head] + MarkReviewed(rows[1..], expenseId, approved, user)
  }

  /** A row whose approved cell is True. */
  predicate Approved(r: Row)
  {
    r.Expense? && r.approved
  }

  /** The pending view: every row whose approved cell is not True, in table order. */
  function Pending(rows: seq<Row>): (p: seq<Row>)
    ensures |p| <= |rows|
    ensures forall r :: r in p <==> r in rows && !Approved(r)
  {
    if rows == [] then []
    else if Approved(rows[0]) then Pending(rows[1..])
    else [rows[0]] + Pending(rows[1..])
  }

  /** The pending view keeps table order: filtering two stretches of rows one
      after the other is filtering their concatenation. */
  lemma {:induction false} PendingKeepsOrder(a: seq<Row>, b: seq<Row>)
    ensures Pending(a + b) == Pending(a) + Pending(b)
    decreases |a|
  {
    if a != [] {
      assert (a + b)[0] == a[0] && (a + b)[1..] == a[1..] + b;
      PendingKeepsOrder(a[1..], b);
    } else {
      assert a + b == b;
    }
  }

  /** After an approval the expense leaves the pending view and nothing else does. */
  lemma ApproveClearsPending(rows: seq<Row>, expenseId: string, user: string)
    ensures forall r :: r in Pending(MarkReviewed(rows, expenseId, true, user)) <==>
      r in Pending(rows) && !Targets(r, expenseId)
  {
    var after := MarkReviewed(rows, expenseId, true, user);
    forall r | r in Pending(rows) && !Targets(r, expenseId)
      ensures r in Pending(after)
    {
      var i :| 0 <= i < |rows| && rows[i] == r;
      assert after[i] == r;
    }
    forall r | r in Pending(after)
      ensures r in Pending(rows) && !Targets(r, expenseId)
    {
      var i :| 0 <= i < |after| && after[i] == r;
      assert !Targets(rows[i], expenseId);
    }
  }

  /** A rejected expense is written with approved = False, which is what the
      pending view looks for, so it stays pending. */
  lemma RejectedStaysPending(rows: seq<Row>, expenseId: string, user: string, i: int)
    requires 0 <= i < |rows| && Targets(rows[i], expenseId)
    ensures MarkReviewed(rows, expenseId, false, user)[i] in Pending(MarkReviewed(rows, expenseId, false, user))
    ensures MarkReviewed(rows, expenseId, false, user)[i].approvedBy == user
  {
  }

  /** A second decision on the same expense replaces the first; repeating one
      decision changes nothing. */
  lemma LastReviewWins(rows: seq<Row>, expenseId: string, first: bool, firstUser: string,
                       second: bool, secondUser: string)
    ensures MarkReviewed(MarkReviewed(rows, expenseId, first, firstUser), expenseId, second, secondUser)
         == MarkReviewed(rows, expenseId, second, secondUser)
  {
  }

  /** A new expense is pending; once approved by Alice it is approved by her
      and no longer pending. */
  lemma ApprovalScenario()
    ensures
      var e := NewExpense("x1", "S1", "E1", "Material", 30000, "2024-01-02", "Cash", "", "");
      && e in Pending([e])
      && MarkReviewed([e], "x1", true, "Alice") == [e.(approved := true, approvedBy := "Alice")]
      && Pending(MarkReviewed([e], "x1", true, "Alice")) == []
  {
    var e := NewExpense("x1", "S1", "E1", "Material", 30000, "2024-01-02", "Cash", "", "");
    var after := MarkReviewed([e], "x1", true, "Alice");
    assert after[0] == e.(approved := true, approvedBy := "Alice");
    assert Approved(after[0]);
  }
}
