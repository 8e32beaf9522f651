/** What every table of the inventory shares: outcomes of an operation, and how
    the SQLite store hands out row ids. */
module Store {

  datatype Option<T> = None | Some(value: T)

  /** The outcome of a registry operation: a value, or the kind of error the
      HTTP layer turns into a 4xx/5xx answer. */
  datatype Result<T, E> = Ok(value: T) | Err(error: E)

  /** A set other than the empty one has a member. */
  lemma Inhabited(s: set<int>)
    requires s != {}
    ensures exists x :: x in s
  {
    if forall x :: x !in s {
      assert false;
    }
  }

  /** `m` is the largest id of `ids`. */
  predicate IsMax(m: int, ids: set<int>)
  {
    m in ids && forall i :: i in ids ==> i <= m
  }

  /** Every finite non-empty set of ids has a largest element. */
  lemma {:induction false} MaxExists(ids: set<int>)
    requires ids != {}
    ensures exists m :: IsMax(m, ids)
  {
    Inhabited(ids);
    var x :| x in ids;
    var rest := ids - {x};
    if rest == {} {
      assert IsMax(x, ids) by {
        forall i | i in ids ensures i <= x {
          assert i !in rest;
        }
      }
    } else {
      MaxExists(rest);
      var m :| IsMax(m, rest);
      var top := if x <= m then m else x;
      assert IsMax(top, ids) by {
        forall i | i in ids ensures i <= top {
          if i != x {
            assert i in rest;
          }
        }
      }
    }
  }

  function MaxId(ids: set<int>): (m: int)
    requires ids != {}
    ensures IsMax(m, ids)
  {
    MaxExists(ids);
    var m :| IsMax(m, ids);
    m
  }

  /** The ids of a table from the newest (largest) to the oldest: `ORDER BY id DESC`. */
  function DescendingIds(ids: set<int>): (r: seq<int>)
    ensures |r| == |ids|
    ensures forall i :: 0 <= i < |r| ==> r[i] in ids
    ensures forall x :: x in ids ==> x in r
    ensures forall i, j :: 0 <= i < j < |r| ==> r[i] > r[j]
    decreases |ids|
  {
    if ids == {} then []
    else
      var m := MaxId(ids);
      var rest := ids - {m};
      assert |rest| == |ids| - 1;
      var tail := DescendingIds(rest);
      PrependMax(ids, m, tail);
      [m] + tail
  }

  /** Putting the largest id in front of the others, listed in descending
      order, lists all of them in descending order. */
  lemma PrependMax(ids: set<int>, m: int, tail: seq<int>)
    requires IsMax(m, ids)
    requires |tail| == |ids - {m}|
    requires forall i :: 0 <= i < |tail| ==> tail[i] in ids - {m}
    requires forall x :: x in ids - {m} ==> x in tail
    requires forall i, j :: 0 <= i < j < |tail| ==> tail[i] > tail[j]
    ensures |[m] + tail| == |ids|
    ensures forall i :: 0 <= i < |[m] + tail| ==> ([m] + tail)[i] in ids
    ensures forall x :: x in ids ==> x in [m] + tail
    ensures forall i, j :: 0 <= i < j < |[m] + tail| ==> ([m] + tail)[i] > ([m] + tail)[j]
  {
    var r := [m] + tail;
    forall i, j | 0 <= i < j < |r|
      ensures r[i] > r[j]
    {
      assert r[j] == tail[j - 1];
      if i > 0 {
        assert r[i] == tail[i - 1];
      }
    }
    forall x | x in ids
      ensures x in r
    {
      if x != m {
        assert x in ids - {m};
      }
    }
  }

  /** The id SQLite gives a new row of a table whose integer primary key has no
      AUTOINCREMENT: one more than the largest id in use, or 1 for an empty table. */
  function NextRowId(ids: set<int>): (r: int)
    ensures r >= 1
    ensures forall i :: i in ids ==> i < r
    ensures r == 1 || r - 1 in ids
  {
    if ids == {} then 1
    else
      var m := MaxId(ids);
      if m >= 1 then m + 1 else 1
  }
}
