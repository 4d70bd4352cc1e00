/** The three tables as maps from primary key to row, and the queries the routes
    run against them. SQLite hands rows back in primary-key order when a query
    has no `ORDER BY`, so a scan visits keys in ascending order. */
module Tables {
  import opened Common
  import opened Records

  predicate Ascending(ids: seq<int>)
  {
    forall i, j :: 0 <= i < j < |ids| ==> ids[i] < ids[j]
  }

  /** The keys in `lo..hi` whose rows satisfy `p`, in ascending order: the result
      of `query.filter(p).all()` restricted to that key range. */
  function Scan<T>(m: map<int, T>, p: T -> bool, lo: int, hi: int): (ids: seq<int>)
    ensures Ascending(ids)
    ensures forall i :: 0 <= i < |ids| ==> lo <= ids[i] < hi
    ensures forall k :: k in ids <==> lo <= k < hi && k in m && p(m[k])
    decreases hi - lo
  {
    if hi <= lo then []
    else
      var rest := Scan(m, p, lo + 1, hi);
      if lo in m && p(m[lo]) then [lo] + rest else rest
  }

  lemma AscendingDistinct(ids: seq<int>)
    requires Ascending(ids)
    ensures Distinct(ids)
  {
  }

  /** `query.filter(p).first()`: the least matching key, if any. */
  function First<T>(m: map<int, T>, p: T -> bool, hi: int): (k: Option<int>)
    ensures k.Some? ==> k.value in m && p(m[k.value]) && 1 <= k.value < hi
    ensures k.Some? ==> forall j :: 1 <= j < hi && j in m && p(m[j]) ==> k.value <= j
    ensures k.None? <==> forall j :: 1 <= j < hi && j in m ==> !p(m[j])
  {
    var ids := Scan(m, p, 1, hi);
    if ids == [] then None
    else
      assert ids[0] in ids;
      assert forall j :: j in ids ==> ids[0] <= j by {
        forall j | j in ids ensures ids[0] <= j {
          var i :| 0 <= i < |ids| && ids[i] == j;
          assert i == 0 || ids[0] < ids[i];
        }
      }
      Some(ids[0])
  }

  // ---------------------------------------------------------------------------
  // `order_by(RFP.created_at.desc())`
  // ---------------------------------------------------------------------------

  predicate NewestFirst(rows: seq<Rfp>)
  {
    forall i, j :: 0 <= i < j < |rows| ==> rows[i].createdAt >= rows[j].createdAt
  }

  /** Place `r` in front of the first row that is not newer than it. */
  function InsertByCreated(r: Rfp, rows: seq<Rfp>): (out: seq<Rfp>)
    requires NewestFirst(rows)
    ensures NewestFirst(out)
    ensures multiset(out) == multiset(rows) + multiset{r}
    ensures |out| == |rows| + 1
  {
    if rows == [] || r.createdAt >= rows[0].createdAt then
      InsertFront(r, rows);
      [r] + rows
    else
      var tail := InsertByCreated(r, rows[1..]);
      InsertBehind(r, rows, tail);
      [rows[0]] + tail
  }

  lemma InsertFront(r: Rfp, rows: seq<Rfp>)
    requires NewestFirst(rows) && (rows == [] || r.createdAt >= rows[0].createdAt)
    ensures NewestFirst([r] + rows)
  {
    forall i, j | 0 <= i < j < |[r] + rows| ensures ([r] + rows)[i].createdAt >= ([r] + rows)[j].createdAt {
      if i == 0 {
        assert ([r] + rows)[j] == rows[j - 1];
        assert rows[0].createdAt >= rows[j - 1].createdAt;
      } else {
        assert ([r] + rows)[i] == rows[i - 1] && ([r] + rows)[j] == rows[j - 1];
      }
    }
  }

  lemma InsertBehind(r: Rfp, rows: seq<Rfp>, tail: seq<Rfp>)
    requires rows != [] && NewestFirst(rows) && r.createdAt < rows[0].createdAt
    requires NewestFirst(tail) && multiset(tail) == multiset(rows[1..]) + multiset{r}
    ensures NewestFirst([rows[0]] + tail)
    ensures multiset([rows[0]] + tail) == multiset(rows) + multiset{r}
  {
    var h := rows[0];
    assert rows == [h] + rows[1..];
    forall k | 0 <= k < |tail| ensures h.createdAt >= tail[k].createdAt {
      assert tail[k] in multiset(tail);
      if tail[k] != r {
        assert tail[k] in multiset(rows[1..]);
        var i :| 0 <= i < |rows[1..]| && rows[1..][i] == tail[k];
        assert rows[i + 1] == tail[k];
      }
    }
    forall i, j | 0 <= i < j < |[h] + tail| ensures ([h] + tail)[i].createdAt >= ([h] + tail)[j].createdAt {
      assert ([h] + tail)[j] == tail[j - 1];
      if i > 0 {
        assert ([h] + tail)[i] == tail[i - 1];
      }
    }
  }

  /** The rows ordered newest first; rows with equal timestamps keep their order. */
  function SortNewestFirst(rows: seq<Rfp>): (out: seq<Rfp>)
    ensures NewestFirst(out)
    ensures multiset(out) == multiset(rows)
    ensures |out| == |rows|
  {
    if rows == [] then []
    else
      assert rows == [rows[0]] + rows[1..];
      InsertByCreated(rows[0], SortNewestFirst(rows[1..]))
  }

  /** The rows at `ids`, in that order. */
  function RowsAt<T>(m: map<int, T>, ids: seq<int>): (rows: seq<T>)
    requires forall i :: 0 <= i < |ids| ==> ids[i] in m
    ensures |rows| == |ids|
    ensures forall i :: 0 <= i < |ids| ==> rows[i] == m[ids[i]]
  {
    if ids == [] then [] else [m[ids[0]]] + RowsAt(m, ids[1..])
  }

  /** A scan over the whole key range with an always-true filter lists every key
      once, so it has as many entries as the table has rows. */
  lemma ScanCoversTable<T>(m: map<int, T>, all: T -> bool, next: int)
    requires forall k :: k in m ==> 1 <= k < next
    requires forall k :: k in m ==> all(m[k])
    ensures |Scan(m, all, 1, next)| == |m|
    ensures forall k :: k in Scan(m, all, 1, next) <==> k in m
  {
    var ids := Scan(m, all, 1, next);
    AscendingDistinct(ids);
    DistinctIffCardinality(ids);
    forall k | k in m ensures k in ids {
    }
    assert (set x | x in ids) == m.Keys;
  }

  lemma SameElements<T>(a: seq<T>, b: seq<T>)
    requires multiset(a) == multiset(b)
    ensures forall x :: x in a <==> x in b
  {
    forall x ensures x in a <==> x in b {
      assert x in a <==> x in multiset(a);
      assert x in b <==> x in multiset(b);
    }
  }
  /** A subset with as many elements as its superset is the whole superset. */
  lemma SubsetCardinality<T>(a: set<T>, b: set<T>)
    requires a <= b
    ensures |a| <= |b|
    ensures |a| == |b| ==> a == b
  {
    assert b == a + (b - a);
    assert a * (b - a) == {};
    if |a| == |b| {
      assert |b - a| == 0;
    }
  }
}
