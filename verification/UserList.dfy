/**
 The AllUsers reply of handle_list_users: whatever order the hash map is walked in, and whatever a correct
 sort does with rows, the reply is one and the same list.
 */
module UserList {
  import opened Handlers

  // ---------- the comparison is the dictionary's ----------

  lemma DifferTail(a: string, b: string)
    requires a != "" && b != "" && a[0] == b[0]
    ensures Before(a, b) <==> Before(a[1..], b[1..])
  {
    assert a == [a[0]] + a[1..] && b == [b[0]] + b[1..];
    if k: nat :| DifferAt(a, b, k) {
      assert a[1..][..k - 1] == a[..k][1..] && b[1..][..k - 1] == b[..k][1..];
      assert DifferAt(a[1..], b[1..], k - 1);
    }
    if k: nat :| DifferAt(a[1..], b[1..], k) {
      assert a[..k + 1] == [a[0]] + a[1..][..k] && b[..k + 1] == [b[0]] + b[1..][..k];
      assert DifferAt(a, b, k + 1);
    }
  }

  lemma {:induction false} LessIsBefore(a: string, b: string)
    ensures Less(a, b) <==> Before(a, b)
  {
    if a != "" && b != "" {
      if a[0] == b[0] {
        DifferTail(a, b);
        LessIsBefore(a[1..], b[1..]);
      } else if a[0] < b[0] {
        assert DifferAt(a, b, 0);
      } else {
        forall k: nat ensures !DifferAt(a, b, k) {
          if k > 0 && k < |a| && k < |b| { assert a[..k][0] == a[0] && b[..k][0] == b[0]; }
        }
      }
    }
  }

  // ---------- it is a strict total order ----------

  lemma {:induction false} LessIrreflexive(a: string)
    ensures !Less(a, a)
  {
    if a != "" {
      LessIrreflexive(a[1..]);
    }
  }

  lemma {:induction false} LessTransitive(a: string, b: string, c: string)
    requires Less(a, b) && Less(b, c)
    ensures Less(a, c)
  {
    if a != "" && a[0] == b[0] && b[0] == c[0] {
      LessTransitive(a[1..], b[1..], c[1..]);
    }
  }

  lemma {:induction false} LessTotal(a: string, b: string)
    ensures Less(a, b) || a == b || Less(b, a)
  {
    if a != "" && b != "" && a[0] == b[0] {
      LessTotal(a[1..], b[1..]);
      assert a == [a[0]] + a[1..] && b == [b[0]] + b[1..];
    }
  }

  lemma Irreflexive(a: string)
    ensures !Before(a, a)
  {
    LessIrreflexive(a);
    LessIsBefore(a, a);
  }

  lemma Transitive(a: string, b: string, c: string)
    requires Before(a, b) && Before(b, c)
    ensures Before(a, c)
  {
    LessIsBefore(a, b);
    LessIsBefore(b, c);
    LessIsBefore(a, c);
    LessTransitive(a, b, c);
  }

  lemma Total(a: string, b: string)
    ensures Before(a, b) || a == b || Before(b, a)
  {
    LessIsBefore(a, b);
    LessIsBefore(b, a);
    LessTotal(a, b);
  }

  lemma Asymmetric(a: string, b: string)
    requires Before(a, b)
    ensures !Before(b, a)
  {
    if Before(b, a) {
      Transitive(a, b, a);
      Irreflexive(a);
    }
  }

  // ---------- at most one list ----------

  ghost predicate Increasing(rows: seq<Row>) {
    forall i, j | 0 <= i < j < |rows| :: Before(rows[i].0, rows[j].0)
  }

  lemma SameHead(a: seq<Row>, b: seq<Row>)
    requires Increasing(a) && Increasing(b) && a != [] && b != []
    requires a[0] in b && b[0] in a
    ensures a[0] == b[0]
  {
    var i :| 0 <= i < |b| && b[i] == a[0];
    var j :| 0 <= j < |a| && a[j] == b[0];
    if i != 0 && j != 0 {
      assert Before(b[0].0, b[i].0);
      Asymmetric(a[0].0, a[j].0);
    }
  }

  lemma SomeRow(b: seq<Row>)
    requires b != []
    ensures exists r :: r in b
  {
    assert b[0] in b;
  }

  lemma {:induction false} SameRowsSameList(a: seq<Row>, b: seq<Row>)
    requires Increasing(a) && Increasing(b)
    requires forall r :: r in a <==> r in b
    ensures a == b
    decreases |a|
  {
    if a == [] {
      if b != [] {
        SomeRow(b);
      }
    } else {
      assert a[0] in a;
      assert b != [] && b[0] in b;
      SameHead(a, b);
      forall r: Row
        ensures r in a[1..] <==> r in b[1..]
      {
        TailRows(a, r);
        TailRows(b, r);
      }
      SameRowsSameList(a[1..], b[1..]);
      assert a == [a[0]] + a[1..] && b == [b[0]] + b[1..];
    }
  }

  lemma TailRows(a: seq<Row>, r: Row)
    requires Increasing(a) && a != []
    ensures r in a[1..] <==> r in a && r != a[0]
  {
    Irreflexive(a[0].0);
    if r in a && r != a[0] {
      var i :| 0 <= i < |a| && a[i] == r;
      assert a[1..][i - 1] == r;
    }
    if r in a[1..] {
      var i :| 0 <= i < |a[1..]| && a[1..][i] == r;
      assert a[i + 1] == r && Before(a[0].0, a[i + 1].0);
    }
  }

  // Two clients that list the users of one state are told exactly the same.
  lemma OneUserList(a: seq<Row>, b: seq<Row>, sessions: map<int, Account>)
    requires IsUserList(a, sessions) && IsUserList(b, sessions)
    ensures a == b
  {
    forall r: Row
      ensures r in a <==> r in b
    {
      if r in a {
        var i :| 0 <= i < |a| && a[i] == r;
      }
      if r in b {
        var i :| 0 <= i < |b| && b[i] == r;
      }
    }
    SameRowsSameList(a, b);
  }

  // ---------- sorting any walk of the map gives it ----------

  function RowOf(a: Account): Row {
    (a.name, a.status)
  }

  // The rows as the loop over sessions_ collects them.
  function Collected(sv: Server, order: seq<int>): (rows: seq<Row>)
    requires IsOrder(sv, order)
    ensures |rows| == |order|
    ensures forall i | 0 <= i < |order| :: order[i] in order && rows[i] == RowOf(sv.sessions[order[i]])
  {
    seq(|order|, i requires 0 <= i < |order| => assert order[i] in order; RowOf(sv.sessions[order[i]]))
  }

  // What std::sort promises for the comparison of first components.
  ghost predicate Ascending(rows: seq<Row>) {
    forall i, j | 0 <= i < j < |rows| :: !Before(rows[j].0, rows[i].0)
  }

  ghost predicate DistinctNames(rows: seq<Row>) {
    forall i, j | 0 <= i < j < |rows| :: rows[i].0 != rows[j].0
  }

  // The registry invariant is what makes the names distinct.
  lemma CollectedDistinct(sv: Server, order: seq<int>)
    requires Valid(sv) && IsOrder(sv, order)
    ensures DistinctNames(Collected(sv, order))
  {
    var rows := Collected(sv, order);
    forall i, j | 0 <= i < j < |rows|
      ensures rows[i].0 != rows[j].0
    {
      assert order[i] in order && order[j] in order;
      var users := Regs(sv).users;
      assert users[order[i]] == UserOf(sv.sessions[order[i]]) && users[order[j]] == UserOf(sv.sessions[order[j]]);
    }
  }

  lemma {:induction false} AtMostOnce(rows: seq<Row>, r: Row)
    requires DistinctNames(rows)
    ensures multiset(rows)[r] <= 1
    decreases |rows|
  {
    if rows != [] {
      var init, last := rows[..|rows| - 1], rows[|rows| - 1];
      assert rows == init + [last];
      AtMostOnce(init, r);
      assert forall i | 0 <= i < |init| :: init[i].0 != last.0;
    }
  }

  lemma Twice(rows: seq<Row>, i: nat, j: nat)
    requires i < j < |rows| && rows[i] == rows[j]
    ensures multiset(rows)[rows[i]] >= 2
  {
    assert rows == rows[..j] + [rows[j]] + rows[j + 1..];
    assert rows[..j][i] == rows[i];
  }

  lemma PermutedDistinct(rows: seq<Row>, sorted: seq<Row>, i: nat, j: nat)
    requires DistinctNames(rows) && multiset(sorted) == multiset(rows) && i < j < |sorted|
    ensures sorted[i].0 != sorted[j].0
  {
    if sorted[i] == sorted[j] {
      Twice(sorted, i, j);
      AtMostOnce(rows, sorted[i]);
    } else {
      assert sorted[i] in multiset(rows) && sorted[j] in multiset(rows);
      var p :| 0 <= p < |rows| && rows[p] == sorted[i];
      var q :| 0 <= q < |rows| && rows[q] == sorted[j];
    }
  }

  // Rows collected by a walk of the sessions in some order, then sorted.
  ghost predicate IsSortedWalk(sv: Server, sorted: seq<Row>) {
    Ascending(sorted) && exists order :: IsOrder(sv, order) && multiset(sorted) == multiset(Collected(sv, order))
  }

  // The reply depends on the sessions alone: not on the order of the hash map, not on the sort.
  lemma SortedWalkIsUserList(sv: Server, sorted: seq<Row>)
    requires Valid(sv) && IsSortedWalk(sv, sorted)
    ensures IsUserList(sorted, sv.sessions)
  {
    var order :| IsOrder(sv, order) && multiset(sorted) == multiset(Collected(sv, order));
    var rows := Collected(sv, order);
    CollectedDistinct(sv, order);
    forall i, j | 0 <= i < j < |sorted|
      ensures Before(sorted[i].0, sorted[j].0)
    {
      PermutedDistinct(rows, sorted, i, j);
      Total(sorted[i].0, sorted[j].0);
    }
    forall i | 0 <= i < |sorted|
      ensures exists fd | fd in sv.sessions :: sorted[i] == (sv.sessions[fd].name, sv.sessions[fd].status)
    {
      assert sorted[i] in multiset(rows);
      var p :| 0 <= p < |rows| && rows[p] == sorted[i];
      assert order[p] in order;
    }
    forall fd | fd in sv.sessions
      ensures (sv.sessions[fd].name, sv.sessions[fd].status) in sorted
    {
      var p :| 0 <= p < |order| && order[p] == fd;
      assert rows[p] in multiset(sorted);
    }
  }

  // ---------- a sort ----------

  /** Puts rows in ascending order of name, by insertion. */
  method Sort(rows: seq<Row>) returns (sorted: seq<Row>)
    ensures multiset(sorted) == multiset(rows) && Ascending(sorted)
  {
    sorted := [];
    for i := 0 to |rows|
      invariant multiset(sorted) == multiset(rows[..i]) && Ascending(sorted)
    {
      assert rows[..i + 1] == rows[..i] + [rows[i]];
      sorted := Insert(sorted, rows[i]);
    }
    assert rows[..|rows|] == rows;
  }

  method Insert(rows: seq<Row>, r: Row) returns (longer: seq<Row>)
    requires Ascending(rows)
    ensures multiset(longer) == multiset(rows) + multiset{r} && Ascending(longer)
  {
    var k := |rows|;
    while k > 0 && Less(r.0, rows[k - 1].0)
      invariant 0 <= k <= |rows|
      invariant forall i | k <= i < |rows| :: Before(r.0, rows[i].0)
    {
      LessIsBefore(r.0, rows[k - 1].0);
      k := k - 1;
    }
    if k > 0 { LessIsBefore(r.0, rows[k - 1].0); }
    longer := rows[..k] + [r] + rows[k..];
    InsertedRows(rows, r, k);
    InsertedAscending(rows, r, k);
  }

  lemma InsertedRows(rows: seq<Row>, r: Row, k: nat)
    requires k <= |rows|
    ensures multiset(rows[..k] + [r] + rows[k..]) == multiset(rows) + multiset{r}
  {
    assert rows == rows[..k] + rows[k..];
  }

  lemma InsertedAscending(rows: seq<Row>, r: Row, k: nat)
    requires Ascending(rows) && k <= |rows| && (k > 0 ==> !Before(r.0, rows[k - 1].0))
    requires forall i | k <= i < |rows| :: Before(r.0, rows[i].0)
    ensures Ascending(rows[..k] + [r] + rows[k..])
  {
    var longer := rows[..k] + [r] + rows[k..];
    forall i, j | 0 <= i < j < |longer|
      ensures !Before(longer[j].0, longer[i].0)
    {
      if i == k {
        Asymmetric(r.0, rows[j - 1].0);
      } else if j == k {
        InsertedAfter(rows, r, k, i);
      } else {
        InsertedElsewhere(rows, k, i, j);
      }
    }
  }

  lemma InsertedElsewhere(rows: seq<Row>, k: nat, i: nat, j: nat)
    requires Ascending(rows) && k <= |rows| && i < j <= |rows| && i != k && j != k
    ensures !Before(rows[if j < k then j else j - 1].0, rows[if i < k then i else i - 1].0)
  {}

  // Everything before the place of an insertion is no greater than the inserted row.
  lemma InsertedAfter(rows: seq<Row>, r: Row, k: nat, i: nat)
    requires Ascending(rows) && i < k <= |rows| && !Before(r.0, rows[k - 1].0)
    ensures !Before(r.0, rows[i].0)
  {
    if Before(r.0, rows[i].0) && i < k - 1 {
      Total(rows[i].0, rows[k - 1].0);
      if Before(rows[i].0, rows[k - 1].0) {
        Transitive(r.0, rows[i].0, rows[k - 1].0);
      }
    }
  }
}
