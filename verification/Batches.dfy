/** What a flush does to its table: the rows it got through are done, nothing else that was there
    has changed, and others have only added to it. */
module Batches {
  /** The rows before the n-th are done, each as done says of its place in the batch. */
  ghost predicate Through<R(!new)>(before: seq<R>, after: seq<R>, rows: seq<R>, n: nat, id: R -> int, done: (nat, R) -> bool) {
    && n <= |rows| && |before| <= |after|
    && forall k :: 0 <= k < |before| ==> id(after[k]) == id(before[k]) && RowThrough(before[k], after[k], rows, n, done)
  }

  ghost predicate RowThrough<R(!new)>(r: R, r': R, rows: seq<R>, n: nat, done: (nat, R) -> bool)
    requires n <= |rows|
  {
    if r in rows[..n] then exists j: nat :: j < n && rows[j] == r && done(j, r') else r' == r
  }

  /** Only the row with this id changed, and it is done. */
  ghost predicate Moves<R(!new)>(a: seq<R>, a': seq<R>, id: R -> int, rowId: int, done: R -> bool) {
    |a| <= |a'| && forall k :: 0 <= k < |a| ==> id(a'[k]) == id(a[k]) && if id(a[k]) == rowId then done(a'[k]) else a'[k] == a[k]
  }

  ghost predicate Ascending<R(!new)>(rows: seq<R>, id: R -> int) {
    forall i, j :: 0 <= i < j < |rows| ==> id(rows[i]) < id(rows[j])
  }

  lemma {:induction false} ThroughNone<R(!new)>(before: seq<R>, rows: seq<R>, id: R -> int, done: (nat, R) -> bool)
    ensures Through(before, before, rows, 0, id, done)
  {
  }

  lemma {:induction false} ThroughMore<R(!new)>(before: seq<R>, a: seq<R>, a': seq<R>, rows: seq<R>, n: nat, id: R -> int, done: (nat, R) -> bool)
    requires Through(before, a, rows, n, id, done) && a <= a'
    ensures Through(before, a', rows, n, id, done)
  {
    forall k | 0 <= k < |before| ensures id(a'[k]) == id(before[k]) && RowThrough(before[k], a'[k], rows, n, done) {
      assert a'[k] == a[k] && RowThrough(before[k], a[k], rows, n, done);
    }
  }

  lemma {:induction false} MovesMore<R(!new)>(a: seq<R>, a': seq<R>, b: seq<R>, id: R -> int, rowId: int, done: R -> bool)
    requires a <= a' && Moves(a', b, id, rowId, done)
    ensures Moves(a, b, id, rowId, done)
  {
    assert forall k :: 0 <= k < |a| ==> a[k] == a'[k];
  }

  /** One more row of the batch. */
  lemma {:induction false} ThroughOneMore<R(!new)>(before: seq<R>, a: seq<R>, a': seq<R>, rows: seq<R>, n: nat, id: R -> int, done: (nat, R) -> bool, doneNow: R -> bool)
    requires Through(before, a, rows, n, id, done) && n < |rows| && rows[n] in before && Ascending(before, id) && Ascending(rows, id)
    requires Moves(a, a', id, id(rows[n]), doneNow) && forall r :: doneNow(r) ==> done(n, r)
    ensures Through(before, a', rows, n + 1, id, done)
  {
    assert rows[..n + 1] == rows[..n] + [rows[n]];
    forall k | 0 <= k < |before| ensures id(a'[k]) == id(before[k]) && RowThrough(before[k], a'[k], rows, n + 1, done) {
      assert RowThrough(before[k], a[k], rows, n, done);
      if id(before[k]) == id(rows[n]) {
        var i :| 0 <= i < |before| && before[i] == rows[n];
        assert k == i;
      }
    }
  }

  /** The next row of the batch is in the table as it was listed. */
  lemma {:induction false} NextAsListed<R(!new)>(before: seq<R>, a: seq<R>, rows: seq<R>, n: nat, id: R -> int, done: (nat, R) -> bool)
    requires Through(before, a, rows, n, id, done) && n < |rows| && rows[n] in before && Ascending(rows, id)
    ensures rows[n] in a
  {
    var k :| 0 <= k < |before| && before[k] == rows[n];
    assert rows[n] !in rows[..n];
    assert RowThrough(before[k], a[k], rows, n, done);
    assert a[k] == rows[n];
  }

  lemma {:induction false} MovesTwice<R(!new)>(a: seq<R>, b: seq<R>, b': seq<R>, c: seq<R>, id: R -> int, rowId: int, first: R -> bool, second: R -> bool)
    requires Moves(a, b, id, rowId, first) && b <= b' && Moves(b', c, id, rowId, second)
    ensures Moves(a, c, id, rowId, second)
  {
    forall k | 0 <= k < |a| ensures id(c[k]) == id(a[k]) && if id(a[k]) == rowId then second(c[k]) else c[k] == a[k] {
      assert b'[k] == b[k] && id(b[k]) == id(a[k]);
    }
  }
}
