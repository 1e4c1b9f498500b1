/** The revision history table (`n8n_storymapper_feature_history`) as an
    in-memory sequence of rows. The store stamps each inserted row with a
    creation time taken from a clock that only moves forward, so rows appear
    in the sequence in strictly increasing `createdAt` order. */
module History {
  import opened JsValues
  import opened Payloads

  /** One persisted revision: who and which session, the document before and
      after, the triggering message, the comment, the optional estimation and
      the creation time the store assigned. */
  datatype Row = Row(
    userId: string,
    sessionId: string,
    featureBefore: string,
    featureAfter: string,
    userMessage: string,
    comment: string,
    estimation: Option<Metrics>,
    createdAt: nat)

  /** The filters the page queries by: all rows of a user (bootstrap), or the
      rows of one session of a user (estimation attach). */
  datatype Key = ForUser(user: string) | ForSession(user: string, session: string)

  predicate Matches(r: Row, k: Key) {
    match k
    case ForUser(u) => r.userId == u
    case ForSession(u, s) => r.userId == u && r.sessionId == s
  }

  /** Rows are in strictly increasing creation order. */
  ghost predicate Ordered(rows: seq<Row>) {
    forall i, j :: 0 <= i < j < |rows| ==> rows[i].createdAt < rows[j].createdAt
  }

  /** The table invariant: ordered, and every stamp already handed out by the clock. */
  ghost predicate WellFormed(rows: seq<Row>, clock: nat) {
    Ordered(rows) && forall i :: 0 <= i < |rows| ==> rows[i].createdAt < clock
  }

  /** Row `i` is the newest row matching `k` by creation time
      (what `.order('created_at', { ascending: false }).limit(1)` selects). */
  ghost predicate IsNewest(rows: seq<Row>, i: int, k: Key) {
    0 <= i < |rows| && Matches(rows[i], k) &&
    forall j :: 0 <= j < |rows| && Matches(rows[j], k) ==> rows[j].createdAt <= rows[i].createdAt
  }

  /** The position of the last row matching `k`, scanning from the end. */
  function LastMatch(rows: seq<Row>, k: Key): (r: Option<nat>)
    ensures r.Some? ==> r.value < |rows| && Matches(rows[r.value], k)
    ensures r.Some? ==> forall j :: r.value < j < |rows| ==> !Matches(rows[j], k)
    ensures r.None? <==> forall j :: 0 <= j < |rows| ==> !Matches(rows[j], k)
    decreases |rows|
  {
    if |rows| == 0 then None
    else if Matches(rows[|rows| - 1], k) then Some(|rows| - 1)
    else LastMatch(rows[..|rows| - 1], k)
  }

  /** The newest row matching `k`, if any row matches. */
  function Newest(rows: seq<Row>, k: Key): (r: Option<nat>)
    requires Ordered(rows)
    ensures r.Some? ==> IsNewest(rows, r.value, k)
    ensures r.None? <==> forall j :: 0 <= j < |rows| ==> !Matches(rows[j], k)
  {
    LastMatch(rows, k)
  }

  /** The estimation update of the page: only the newest row matching `k`
      gets `estimation := e`; every other row, and every other field of that
      row, stays as it was; with no matching row the table is unchanged. */
  function AttachEstimation(rows: seq<Row>, k: Key, e: Metrics): (r: seq<Row>)
    requires Ordered(rows)
    ensures |r| == |rows|
    ensures forall i :: 0 <= i < |rows| ==> r[i].(estimation := rows[i].estimation) == rows[i]
    ensures (forall j :: 0 <= j < |rows| ==> !Matches(rows[j], k)) ==> r == rows
    ensures Ordered(r)
  {
    match Newest(rows, k)
    case None => rows
    case Some(n) => rows[n := rows[n].(estimation := Some(e))]
  }

  /** The row an attach changes is exactly the newest matching row: it alone
      gets the estimation, every other row is left as it was. */
  lemma AttachTargetsNewest(rows: seq<Row>, k: Key, e: Metrics)
    requires Ordered(rows)
    ensures forall i :: 0 <= i < |rows| ==>
      AttachEstimation(rows, k, e)[i] == if IsNewest(rows, i, k) then rows[i].(estimation := Some(e)) else rows[i]
  {
    var r := AttachEstimation(rows, k, e);
    var n := Newest(rows, k);
    forall i | 0 <= i < |rows|
      ensures r[i] == if IsNewest(rows, i, k) then rows[i].(estimation := Some(e)) else rows[i]
    {
      if IsNewest(rows, i, k) {
        assert n.Some? && n.value == i by {
          assert n.Some?;
          assert IsNewest(rows, n.value, k);
        }
      }
    }
  }

  /** Attaching after appending a row of that session lands on the new row,
      whatever older rows of the session exist. */
  lemma {:induction false} AttachAfterAppend(rows: seq<Row>, row: Row, e: Metrics)
    requires Ordered(rows)
    requires forall i :: 0 <= i < |rows| ==> rows[i].createdAt < row.createdAt
    ensures Ordered(rows + [row])
    ensures AttachEstimation(rows + [row], ForSession(row.userId, row.sessionId), e)
         == rows + [row.(estimation := Some(e))]
  {
    var t := rows + [row];
    var k := ForSession(row.userId, row.sessionId);
    assert IsNewest(t, |rows|, k);
    AttachTargetsNewest(t, k, e);
    var r := AttachEstimation(t, k, e);
    forall i | 0 <= i < |rows|
      ensures r[i] == rows[i]
    {
      assert t[i] == rows[i];
      assert !IsNewest(t, i, k);
    }
  }

  /** The first revision of a session receives the metrics that follow it. */
  lemma AttachOnFirstRevision(row: Row, e: Metrics)
    ensures Ordered([row])
    ensures AttachEstimation([row], ForSession(row.userId, row.sessionId), e) == [row.(estimation := Some(e))]
  {
    AttachAfterAppend([], row, e);
    assert [] + [row] == [row];
  }

  /** Attaching the same estimation twice is the same as attaching it once,
      so a duplicated metrics broadcast leaves the table as one delivery would. */
  lemma {:induction false} AttachIdempotent(rows: seq<Row>, k: Key, e: Metrics)
    requires Ordered(rows)
    ensures AttachEstimation(AttachEstimation(rows, k, e), k, e) == AttachEstimation(rows, k, e)
  {
    var once := AttachEstimation(rows, k, e);
    var twice := AttachEstimation(once, k, e);
    AttachTargetsNewest(rows, k, e);
    AttachTargetsNewest(once, k, e);
    forall i | 0 <= i < |rows|
      ensures twice[i] == once[i]
    {
      assert IsNewest(once, i, k) <==> IsNewest(rows, i, k) by {
        forall j | 0 <= j < |rows|
          ensures Matches(once[j], k) == Matches(rows[j], k)
          ensures once[j].createdAt == rows[j].createdAt
        {
          assert once[j].(estimation := rows[j].estimation) == rows[j];
        }
      }
    }
  }

  /** Round trip of a save and a bootstrap: after a revision of a user is
      appended, the newest row of that user is that revision. */
  lemma {:induction false} SaveThenLoad(rows: seq<Row>, row: Row)
    requires Ordered(rows)
    requires forall i :: 0 <= i < |rows| ==> rows[i].createdAt < row.createdAt
    ensures Ordered(rows + [row])
    ensures Newest(rows + [row], ForUser(row.userId)) == Some(|rows|)
  {
    var t := rows + [row];
    assert Matches(t[|rows|], ForUser(row.userId));
  }
}
