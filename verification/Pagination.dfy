/** What the orderings, offset pages and cursor walks guarantee. */
module Pagination {
  import opened Domain
  import opened Sequences
  import opened TaskQuery

  predicate DistinctIds(rows: seq<Task>)
  {
    forall i, j :: 0 <= i < j < |rows| ==> rows[i].id != rows[j].id
  }

  /** What the schema guarantees of stored rows: a primary key and real timestamps. */
  predicate ValidTable(rows: seq<Task>)
  {
    && DistinctIds(rows)
    && forall t :: t in rows ==> t.id != "" && t.createdAt != ZERO_TIME && t.updatedAt != ZERO_TIME
  }

  predicate Sorted(q: Query, s: seq<Task>)
  {
    forall i, j :: 0 <= i < j < |s| ==> Before(q, s[i], s[j])
  }

  // ----- every ORDER BY is a strict total order on distinct ids -----

  lemma KeyTransitive(asc: bool, t0: int, i0: Id, t1: int, i1: Id, t2: int, i2: Id)
    requires KeyBefore(asc, t0, i0, t1, i1) && KeyBefore(asc, t1, i1, t2, i2)
    ensures KeyBefore(asc, t0, i0, t2, i2)
  {
    if t0 == t1 == t2 {
      if asc {
        LexTransitive(i0, i1, i2);
      } else {
        LexTransitive(i2, i1, i0);
      }
    }
  }

  lemma KeyIrreflexive(asc: bool, t: int, i: Id)
    ensures !KeyBefore(asc, t, i, t, i)
  {
    LexIrreflexive(i);
  }

  lemma BeforeIrreflexive(q: Query, a: Task)
    ensures !Before(q, a, a)
  {
    LexIrreflexive(a.id);
  }

  lemma BeforeTransitive(q: Query, a: Task, b: Task, c: Task)
    requires Before(q, a, b) && Before(q, b, c)
    ensures Before(q, a, c)
  {
    if Lex(a.id, b.id) && Lex(b.id, c.id) {
      LexTransitive(a.id, b.id, c.id);
    }
    if Lex(c.id, b.id) && Lex(b.id, a.id) {
      LexTransitive(c.id, b.id, a.id);
    }
  }

  lemma BeforeTotal(q: Query, a: Task, b: Task)
    requires a.id != b.id
    ensures Before(q, a, b) || Before(q, b, a)
  {
    LexTotal(a.id, b.id);
  }

  lemma BeforeDecides(q: Query, a: Task, b: Task)
    ensures !(Before(q, a, b) && Before(q, b, a))
    ensures a.id != b.id ==> Before(q, a, b) || Before(q, b, a)
  {
    if Before(q, a, b) && Before(q, b, a) {
      BeforeTransitive(q, a, b, a);
      BeforeIrreflexive(q, a);
    }
    if a.id != b.id {
      BeforeTotal(q, a, b);
    }
  }

  /** All four orderings, in either direction, are strict total orders on rows with distinct ids. */
  lemma OrderIsStrictTotal(q: Query, a: Task, b: Task, c: Task)
    ensures !Before(q, a, a)
    ensures Before(q, a, b) && Before(q, b, c) ==> Before(q, a, c)
    ensures a.id != b.id ==> (Before(q, a, b) <==> !Before(q, b, a))
  {
    hide Before;
    BeforeIrreflexive(q, a);
    BeforeDecides(q, a, b);
    if Before(q, a, b) && Before(q, b, c) {
      BeforeTransitive(q, a, b, c);
    }
  }

  lemma {:induction false} InsertSorted(q: Query, t: Task, s: seq<Task>)
    requires Sorted(q, s) && forall x :: x in s ==> x.id != t.id
    ensures Sorted(q, Insert(q, t, s))
  {
    if s != [] {
      if Before(q, t, s[0]) {
        forall j | 0 < j < |s|
          ensures Before(q, t, s[j])
        {
          BeforeTransitive(q, t, s[0], s[j]);
        }
      } else {
        BeforeTotal(q, t, s[0]);
        InsertSorted(q, t, s[1..]);
        var r := Insert(q, t, s[1..]);
        forall j | 0 <= j < |r|
          ensures Before(q, s[0], r[j])
        {
          assert r[j] in r;
          if r[j] != t {
            var k :| 0 <= k < |s[1..]| && s[1..][k] == r[j];
            assert Before(q, s[0], s[k + 1]);
          }
        }
      }
    }
  }

  lemma {:induction false} SortSorts(q: Query, rows: seq<Task>)
    requires DistinctIds(rows)
    ensures Sorted(q, SortRows(q, rows))
  {
    if rows != [] {
      SortSorts(q, rows[1..]);
      forall x | x in rows[1..]
        ensures x.id != rows[0].id
      {
        var k :| 0 <= k < |rows[1..]| && rows[1..][k] == x;
        assert rows[k + 1] == x;
      }
      InsertSorted(q, rows[0], SortRows(q, rows[1..]));
    }
  }

  /** A strictly sorted sequence is determined by its elements. */
  lemma {:induction false} SortedUnique(q: Query, a: seq<Task>, b: seq<Task>)
    requires Sorted(q, a) && Sorted(q, b)
    requires forall x :: x in a <==> x in b
    ensures a == b
  {
    assert b == [] || b[0] in b;
    if a != [] {
      assert a[0] in b;
      var j :| 0 <= j < |b| && b[j] == a[0];
      assert b[0] in a;
      var i :| 0 <= i < |a| && a[i] == b[0];
      if 0 < i && 0 < j {
        BeforeDecides(q, a[0], b[0]);
        assert false;
      }
      assert a[0] == b[0];
      SortedTail(q, a);
      SortedTail(q, b);
      SortedUnique(q, a[1..], b[1..]);
      assert a == [a[0]] + a[1..] && b == [b[0]] + b[1..];
    }
  }

  lemma SortedTail(q: Query, s: seq<Task>)
    requires Sorted(q, s) && s != []
    ensures Sorted(q, s[1..])
    ensures forall x :: x in s[1..] <==> x in s && x != s[0]
  {
    BeforeIrreflexive(q, s[0]);
    forall x | x in s && x != s[0]
      ensures x in s[1..]
    {
      var k :| 0 <= k < |s| && s[k] == x;
      assert s[1..][k - 1] == x;
    }
    forall x | x in s[1..]
      ensures x in s && x != s[0]
    {
      var k :| 0 <= k < |s[1..]| && s[1..][k] == x;
      assert s[k + 1] == x && Before(q, s[0], s[k + 1]);
    }
  }

  lemma {:induction false} FilterDistinct(p: Task -> bool, rows: seq<Task>)
    requires DistinctIds(rows)
    ensures DistinctIds(Filter(p, rows))
  {
    if rows != [] {
      FilterDistinct(p, rows[1..]);
      var r := Filter(p, rows[1..]);
      forall j | 0 <= j < |r|
        ensures r[j].id != rows[0].id
      {
        assert r[j] in rows[1..];
        var k :| 0 <= k < |rows[1..]| && rows[1..][k] == r[j];
        assert rows[k + 1] == r[j];
      }
    }
  }

  /** A listing holds exactly the selected rows, in strict listing order. */
  lemma ListingSorted(rows: seq<Task>, q: Query, clock: int, after: Option<Cursor>)
    requires DistinctIds(rows)
    ensures Sorted(q, Listing(rows, q, clock, after))
    ensures forall t :: t in Listing(rows, q, clock, after) <==> t in rows && Selected(q, clock, after, t)
  {
    FilterDistinct(t => Selected(q, clock, after, t), rows);
    SortSorts(q, Filter(t => Selected(q, clock, after, t), rows));
  }

  /** The listing does not depend on the physical order of the rows. */
  lemma ListingIgnoresRowOrder(rows: seq<Task>, rows': seq<Task>, q: Query, clock: int, after: Option<Cursor>)
    requires DistinctIds(rows) && DistinctIds(rows')
    requires forall t :: t in rows <==> t in rows'
    ensures Listing(rows, q, clock, after) == Listing(rows', q, clock, after)
  {
    ListingSorted(rows, q, clock, after);
    ListingSorted(rows', q, clock, after);
    SortedUnique(q, Listing(rows, q, clock, after), Listing(rows', q, clock, after));
  }

  /** Sorting by due date, tasks without one come last in either direction. */
  lemma NoDueDateSortsLast(rows: seq<Task>, q: Query, clock: int, after: Option<Cursor>, i: nat, j: nat)
    requires DistinctIds(rows) && q.sort == SORT_DUE_AT
    requires i < |Listing(rows, q, clock, after)| && j < |Listing(rows, q, clock, after)|
    requires Listing(rows, q, clock, after)[i].dueAt.Some? && Listing(rows, q, clock, after)[j].dueAt.None?
    ensures i < j
  {
    ListingSorted(rows, q, clock, after);
  }

  // ----- offset pages -----

  /** The offset of page `k`. */
  function PageOffset(k: nat, limit: nat): nat
  {
    k * limit
  }

  /** Pages at offsets 0, L, 2L, ... of a fixed table, for any sort. */
  function OffsetPage(rows: seq<Task>, q: Query, clock: int, k: nat): Page
    requires IsNormalized(q)
  {
    var at := q.(offset := PageOffset(k, q.limit), cursor := Absent);
    Assemble(at, Fetch(rows, at, clock, None), Count(rows, at, clock))
  }

  lemma OffsetPageIs(rows: seq<Task>, q: Query, clock: int, k: nat)
    requires IsNormalized(q)
    ensures var s, p := Listing(rows, q, clock, None), OffsetPage(rows, q, clock, k);
      && p.tasks == Slice(s, PageOffset(k, q.limit), q.limit)
      && (p.hasMore <==> PageOffset(k, q.limit) + q.limit < |s|)
      && p.total == |s|
  {
    hide Matches, Before, SortRows, Listing, PageOffset, Count;
    var at := q.(offset := PageOffset(k, q.limit), cursor := Absent);
    SameListing(rows, q, at, clock, None);
    CountIsListed(rows, q, at, clock);
  }

  /** The total counts the rows of the whole listing. */
  lemma CountIsListed(rows: seq<Task>, q: Query, at: Query, clock: int)
    requires at == q.(offset := at.offset, cursor := at.cursor)
    ensures Count(rows, at, clock) == |Listing(rows, q, clock, None)|
  {
    FilterSame(t => Matches(at, clock, t), t => Selected(q, clock, None, t), rows);
  }

  /** Only the filter, sort and order of a query decide its listing. */
  lemma {:induction false} SameListing(rows: seq<Task>, q: Query, q': Query, clock: int, after: Option<Cursor>)
    requires q' == q.(offset := q'.offset, cursor := q'.cursor)
    ensures Listing(rows, q, clock, after) == Listing(rows, q', clock, after)
  {
    FilterSame(t => Selected(q, clock, after, t), t => Selected(q', clock, after, t), rows);
    SortSame(q, q', Filter(t => Selected(q, clock, after, t), rows));
  }

  lemma {:induction false} SortSame(q: Query, q': Query, rows: seq<Task>)
    requires q' == q.(offset := q'.offset, cursor := q'.cursor)
    ensures SortRows(q, rows) == SortRows(q', rows)
  {
    if rows != [] {
      SortSame(q, q', rows[1..]);
      InsertSame(q, q', rows[0], SortRows(q, rows[1..]));
    }
  }

  lemma {:induction false} InsertSame(q: Query, q': Query, t: Task, s: seq<Task>)
    requires q' == q.(offset := q'.offset, cursor := q'.cursor)
    ensures Insert(q, t, s) == Insert(q', t, s)
  {
    if s != [] && !Before(q, t, s[0]) {
      InsertSame(q, q', t, s[1..]);
    }
  }

  /** Successive offset pages of a fixed table partition the filtered rows:
      every matching row is on exactly one page, and no other row is on any. */
  lemma OffsetPagesPartition(rows: seq<Task>, q: Query, clock: int, t: Task)
    requires DistinctIds(rows) && IsNormalized(q)
    ensures (exists k: nat :: t in OffsetPage(rows, q, clock, k).tasks) <==> t in rows && Matches(q, clock, t)
    ensures forall k: nat, l: nat :: t in OffsetPage(rows, q, clock, k).tasks && t in OffsetPage(rows, q, clock, l).tasks ==> k == l
  {
    hide Matches, Before, SortRows, Listing, OffsetPage, PageOffset;
    var s := Listing(rows, q, clock, None);
    ListingSorted(rows, q, clock, None);
    if t in s {
      var i :| 0 <= i < |s| && s[i] == t;
      var k := PageOfIndex(rows, q, clock, i);
    }
    forall k: nat | t in OffsetPage(rows, q, clock, k).tasks
      ensures t in s
    {
      var i := IndexOnPage(rows, q, clock, k, t);
    }
    forall k: nat, l: nat | t in OffsetPage(rows, q, clock, k).tasks && t in OffsetPage(rows, q, clock, l).tasks
      ensures k == l
    {
      var i := IndexOnPage(rows, q, clock, k, t);
      var j := IndexOnPage(rows, q, clock, l, t);
      BeforeIrreflexive(q, t);
      assert i == j;
      PageNumberUnique(k, l, i, q.limit);
    }
  }

  lemma PageNumberUnique(k: nat, l: nat, i: nat, limit: nat)
    requires PageOffset(k, limit) <= i < PageOffset(k, limit) + limit && PageOffset(l, limit) <= i < PageOffset(l, limit) + limit
    ensures k == l
  {
    if k < l {
      MulStep(k, l, limit);
    } else if l < k {
      MulStep(l, k, limit);
    }
  }

  lemma {:induction false} MulStep(a: nat, b: nat, c: nat)
    requires a < b
    ensures a * c + c <= b * c
  {
    if a + 1 < b {
      MulStep(a, b - 1, c);
      assert b * c == (b - 1) * c + c;
    } else {
      assert b * c == a * c + c;
    }
  }

  lemma IndexOnPage(rows: seq<Task>, q: Query, clock: int, k: nat, t: Task) returns (i: nat)
    requires IsNormalized(q) && t in OffsetPage(rows, q, clock, k).tasks
    ensures i < |Listing(rows, q, clock, None)| && Listing(rows, q, clock, None)[i] == t
    ensures PageOffset(k, q.limit) <= i < PageOffset(k, q.limit) + q.limit
  {
    hide Matches, Before, SortRows, Listing, OffsetPage, PageOffset;
    OffsetPageIs(rows, q, clock, k);
    var p := OffsetPage(rows, q, clock, k).tasks;
    var j :| 0 <= j < |p| && p[j] == t;
    i := PageOffset(k, q.limit) + j;
  }

  lemma {:induction false} PageNumber(i: nat, limit: nat) returns (k: nat)
    requires 0 < limit
    ensures PageOffset(k, limit) <= i < PageOffset(k, limit) + limit
  {
    if i < limit {
      k := 0;
    } else {
      k := PageNumber(i - limit, limit);
      assert (k + 1) * limit == k * limit + limit;
      k := k + 1;
    }
  }

  lemma PageOfIndex(rows: seq<Task>, q: Query, clock: int, i: nat) returns (k: nat)
    requires IsNormalized(q) && i < |Listing(rows, q, clock, None)|
    ensures Listing(rows, q, clock, None)[i] in OffsetPage(rows, q, clock, k).tasks
  {
    hide Matches, Before, SortRows, Listing, OffsetPage, PageOffset;
    var s := Listing(rows, q, clock, None);
    k := PageNumber(i, q.limit);
    OffsetPageIs(rows, q, clock, k);
    assert Slice(s, PageOffset(k, q.limit), q.limit)[i - PageOffset(k, q.limit)] == s[i];
  }

  // ----- cursors -----

  function KeyTime(q: Query, t: Task): int
  {
    if SortOrDefault(q.sort) == SORT_UPDATED_AT then t.updatedAt else t.createdAt
  }

  /** A cursor taken at a row selects exactly the rows listed after it. */
  lemma CursorIsPosition(q: Query, t: Task, x: Task)
    requires SupportsCursor(q.sort)
    ensures PastCursor(CursorAfter(t, q.sort, q.order), x) <==> Before(q, t, x)
    ensures Before(q, t, x) <==> KeyBefore(Ascending(q), KeyTime(q, t), t.id, KeyTime(q, x), x.id)
  {
  }

  /** An accepted cursor compares rows the way the listing orders them. */
  lemma AcceptedCursor(q: Query)
    requires StartAfter(q).Ok? && StartAfter(q).value.Some?
    ensures SupportsCursor(q.sort)
    ensures var c := StartAfter(q).value.value;
      forall t :: PastCursor(c, t) <==> KeyBefore(Ascending(q), c.time, c.id, KeyTime(q, t), t.id)
  {
  }

  lemma PastIsUpward(q: Query, t: Task, x: Task)
    requires StartAfter(q).Ok? && StartAfter(q).value.Some?
    requires PastCursor(StartAfter(q).value.value, t) && Before(q, t, x)
    ensures PastCursor(StartAfter(q).value.value, x)
  {
    var c := StartAfter(q).value.value;
    AcceptedCursor(q);
    CursorIsPosition(q, t, x);
    KeyTransitive(Ascending(q), c.time, c.id, KeyTime(q, t), t.id, KeyTime(q, x), x.id);
  }

  /** Restricting a listing to the rows past one of its own rows leaves the rest of it. */
  lemma KeysetIsSuffix(rows: seq<Task>, q: Query, clock: int, i: nat)
    requires DistinctIds(rows) && StartAfter(q).Ok? && SupportsCursor(q.sort)
    requires i < |Listing(rows, q, clock, StartAfter(q).value)|
    ensures var s := Listing(rows, q, clock, StartAfter(q).value);
      Listing(rows, q, clock, Some(CursorAfter(s[i], q.sort, q.order))) == s[i + 1..]
  {
    var after := StartAfter(q).value;
    var s := Listing(rows, q, clock, after);
    var c := CursorAfter(s[i], q.sort, q.order);
    var r := Listing(rows, q, clock, Some(c));
    ListingSorted(rows, q, clock, after);
    ListingSorted(rows, q, clock, Some(c));
    assert s[i] in s;
    forall x
      ensures x in r <==> x in s[i + 1..]
    {
      CursorIsPosition(q, s[i], x);
      if x in r {
        if after.Some? {
          PastIsUpward(q, s[i], x);
        }
        assert x in s;
        var k :| 0 <= k < |s| && s[k] == x;
        if k < i {
          BeforeDecides(q, s[i], s[k]);
        }
        BeforeIrreflexive(q, s[i]);
        assert i < k && s[i + 1..][k - (i + 1)] == x;
      }
      if x in s[i + 1..] {
        var k :| 0 <= k < |s[i + 1..]| && s[i + 1..][k] == x;
        assert s[i + 1 + k] == x && Before(q, s[i], s[i + 1 + k]) && x in s;
      }
    }
    SortedUnique(q, r, s[i + 1..]);
  }

  /** The rows a request has still to return. */
  function Remaining(rows: seq<Task>, q: Query, clock: int): seq<Task>
    requires StartAfter(q).Ok? && 0 <= q.offset
  {
    var s := Listing(rows, q, clock, StartAfter(q).value);
    if StartAfter(q).value.Some? then s else Slice(s, q.offset, |s|)
  }

  /** The request a client makes with the next_cursor of a page. */
  function Follow(q: Query, c: Cursor): Query
  {
    q.(cursor := Given(c), offset := 0)
  }

  /** One page takes the next rows and says truthfully whether more remain. */
  lemma PageTakes(rows: seq<Task>, q: Query, clock: int)
    requires IsNormalized(q) && StartAfter(q).Ok?
    ensures Evaluate(rows, q, clock).Ok?
    ensures var p, r := Evaluate(rows, q, clock).value, Remaining(rows, q, clock);
      && p.tasks == Slice(r, 0, q.limit)
      && (p.hasMore <==> q.limit < |r|)
      && p.next == if p.hasMore && SupportsCursor(q.sort) then Some(CursorAfter(r[q.limit - 1], q.sort, q.order)) else None
  {
    hide Matches, KeyBefore, Before, SortRows, Listing, StartAfter, CursorAfter, Count;
    var after := StartAfter(q).value;
    var s, r := Listing(rows, q, clock, after), Remaining(rows, q, clock);
    var o := if after.Some? then 0 else q.offset;
    assert r == if o >= |s| then [] else s[o..];
    assert Fetch(rows, q, clock, after) == Slice(r, 0, q.limit + 1);
  }

  /** A cursor taken at a stored row is accepted by the listing it was taken for. */
  lemma CursorIsAccepted(q: Query, t: Task)
    requires SupportsCursor(q.sort) && t.id != "" && t.createdAt != ZERO_TIME && t.updatedAt != ZERO_TIME
    ensures var c := CursorAfter(t, q.sort, q.order); StartAfter(Follow(q, c)) == Ok(Some(c))
  {
  }

  /** What remains is the listing from some index on, and its last row on the page is a row of the listing. */
  lemma RemainingIsSuffix(rows: seq<Task>, q: Query, clock: int) returns (o: nat)
    requires IsNormalized(q) && StartAfter(q).Ok?
    ensures var s := Listing(rows, q, clock, StartAfter(q).value);
      o <= |s| && Remaining(rows, q, clock) == s[o..]
  {
    hide Listing, StartAfter;
    var s := Listing(rows, q, clock, StartAfter(q).value);
    o := if StartAfter(q).value.Some? then 0 else if q.offset >= |s| then |s| else q.offset;
  }

  /** Past the last row of a page remains exactly what the page left. */
  lemma RemainingContinues(rows: seq<Task>, q: Query, clock: int)
    requires ValidTable(rows) && IsNormalized(q) && StartAfter(q).Ok? && SupportsCursor(q.sort)
    requires q.limit < |Remaining(rows, q, clock)|
    ensures var r := Remaining(rows, q, clock);
      var last := r[q.limit - 1];
      && last in rows
      && Listing(rows, q, clock, Some(CursorAfter(last, q.sort, q.order))) == r[q.limit..]
  {
    hide Remaining, Listing, StartAfter, SupportsCursor, CursorAfter, Matches, PastCursor, Before;
    var s := Listing(rows, q, clock, StartAfter(q).value);
    var o := RemainingIsSuffix(rows, q, clock);
    var i := o + q.limit - 1;
    ListingSorted(rows, q, clock, StartAfter(q).value);
    assert s[o..][q.limit - 1] == s[i] && s[i] in s;
    KeysetIsSuffix(rows, q, clock, i);
    assert s[i + 1..] == s[o..][q.limit..];
  }

  /** The cursor taken at the last row of a page is accepted, and continues exactly where the page stopped. */
  lemma PageContinues(rows: seq<Task>, q: Query, clock: int)
    requires ValidTable(rows) && IsNormalized(q) && StartAfter(q).Ok? && SupportsCursor(q.sort)
    requires q.limit < |Remaining(rows, q, clock)|
    ensures var r := Remaining(rows, q, clock);
      var c := CursorAfter(r[q.limit - 1], q.sort, q.order);
      && StartAfter(Follow(q, c)) == Ok(Some(c))
      && Remaining(rows, Follow(q, c), clock) == r[q.limit..]
  {
    hide Listing, StartAfter, SupportsCursor, CursorAfter, DistinctIds, Slice;
    RemainingContinues(rows, q, clock);
    var last := Remaining(rows, q, clock)[q.limit - 1];
    var c := CursorAfter(last, q.sort, q.order);
    CursorIsAccepted(q, last);
    SameListing(rows, q, Follow(q, c), clock, Some(c));
  }

  lemma PageStep(rows: seq<Task>, q: Query, clock: int)
    requires ValidTable(rows) && IsNormalized(q) && StartAfter(q).Ok? && SupportsCursor(q.sort)
    ensures Evaluate(rows, q, clock).Ok?
    ensures var p, r := Evaluate(rows, q, clock).value, Remaining(rows, q, clock);
      && p.tasks == Slice(r, 0, q.limit)
      && (p.hasMore <==> q.limit < |r|)
      && (p.next.Some? <==> p.hasMore)
      && (p.hasMore ==>
            && p.next == Some(CursorAfter(r[q.limit - 1], q.sort, q.order))
            && StartAfter(Follow(q, p.next.value)) == Ok(p.next)
            && Remaining(rows, Follow(q, p.next.value), clock) == r[q.limit..])
  {
    hide Evaluate, StartAfter, Remaining, CursorAfter;
    PageTakes(rows, q, clock);
    if q.limit < |Remaining(rows, q, clock)| {
      PageContinues(rows, q, clock);
    }
  }

  // ----- walking a fixed table -----

  /** Following next_cursor; the k-th page reads the k-th table state at the k-th clock value. */
  function Walk(tables: seq<seq<Task>>, clocks: seq<int>, q: Query): (pages: seq<Page>)
    requires |tables| == |clocks| && IsNormalized(q)
    ensures |pages| <= |tables|
  {
    if tables == [] then []
    else
      match Evaluate(tables[0], q, clocks[0])
      case Err(_) => []
      case Ok(p) => [p] + if p.next.None? then [] else Walk(tables[1..], clocks[1..], Follow(q, p.next.value))
  }

  function Concat(pages: seq<Page>): seq<Task>
  {
    if pages == [] then [] else pages[0].tasks + Concat(pages[1..])
  }

  /** A walk of up to `n` pages over a table that does not change. */
  function FixedTableWalk(rows: seq<Task>, clock: int, n: nat, q: Query): (pages: seq<Page>)
    requires IsNormalized(q)
    ensures |pages| <= n
  {
    Walk(seq(n, _ => rows), seq(n, _ => clock), q)
  }

  lemma FixedTableWalkStep(rows: seq<Task>, clock: int, n: nat, q: Query)
    requires IsNormalized(q) && Evaluate(rows, q, clock).Ok? && 0 < n
    ensures var p := Evaluate(rows, q, clock).value;
      FixedTableWalk(rows, clock, n, q) ==
      [p] + if p.next.None? then [] else FixedTableWalk(rows, clock, n - 1, Follow(q, p.next.value))
  {
    hide Evaluate;
    assert seq(n, _ => rows)[1..] == seq(n - 1, _ => rows);
    assert seq(n, _ => clock)[1..] == seq(n - 1, _ => clock);
  }

  /** On a fixed table, for both cursor-capable sorts and both orders, the walk ends and
      its pages, put together, are the sorted filtered list from the starting point on. */
  lemma {:induction false} FixedWalk(rows: seq<Task>, clock: int, n: nat, q: Query)
    requires ValidTable(rows) && IsNormalized(q) && StartAfter(q).Ok? && SupportsCursor(q.sort)
    requires |Remaining(rows, q, clock)| <= n * q.limit && 0 < n
    ensures var w := FixedTableWalk(rows, clock, n, q);
      && 0 < |w| <= n && !w[|w| - 1].hasMore
      && Concat(w) == Remaining(rows, q, clock)
    decreases n
  {
    hide Evaluate, Remaining, FixedTableWalk;
    PageStep(rows, q, clock);
    FixedTableWalkStep(rows, clock, n, q);
    var p, r := Evaluate(rows, q, clock).value, Remaining(rows, q, clock);
    var w := FixedTableWalk(rows, clock, n, q);
    if p.hasMore {
      assert n * q.limit == (n - 1) * q.limit + q.limit;
      var q' := Follow(q, p.next.value);
      FixedWalk(rows, clock, n - 1, q');
      assert w[1..] == FixedTableWalk(rows, clock, n - 1, q');
      assert p.tasks + r[q.limit..] == r;
    } else {
      assert w[1..] == [];
    }
  }

  lemma SliceShift(s: seq<Task>, skipped: nat, offset: nat, limit: nat)
    requires skipped <= |s|
    ensures Slice(s, skipped + offset, limit) == Slice(s[skipped..], offset, limit)
  {
  }

  /** How many rows `k` full pages hold. */
  function Skipped(k: nat, limit: nat): nat
  {
    if k == 0 then 0 else limit + Skipped(k - 1, limit)
  }

  lemma {:induction false} SkippedIs(k: nat, limit: nat)
    ensures Skipped(k, limit) == PageOffset(k, limit)
  {
    if k > 0 {
      SkippedIs(k - 1, limit);
      assert k * limit == (k - 1) * limit + limit;
    }
  }

  /** The k-th page of the walk holds the k-th batch of remaining rows. */
  lemma {:induction false} FixedWalkPage(rows: seq<Task>, clock: int, n: nat, q: Query, k: nat)
    requires ValidTable(rows) && IsNormalized(q) && StartAfter(q).Ok? && SupportsCursor(q.sort)
    requires k < |FixedTableWalk(rows, clock, n, q)|
    ensures var p, r := FixedTableWalk(rows, clock, n, q)[k], Remaining(rows, q, clock);
      && p.tasks == Slice(r, Skipped(k, q.limit), q.limit)
      && (p.hasMore <==> Skipped(k, q.limit) + q.limit < |r|)
    decreases k
  {
    hide Evaluate, Remaining, FixedTableWalk, Slice, StartAfter, CursorAfter, SupportsCursor, ValidTable;
    PageStep(rows, q, clock);
    FixedTableWalkStep(rows, clock, n, q);
    var p, r := Evaluate(rows, q, clock).value, Remaining(rows, q, clock);
    if k > 0 {
      FixedWalkPage(rows, clock, n - 1, Follow(q, p.next.value), k - 1);
      SliceShift(r, q.limit, Skipped(k - 1, q.limit), q.limit);
    }
  }

  /** Keyset pagination refines offset pagination: same tasks, same has_more, page by page. */
  lemma KeysetRefinesOffset(rows: seq<Task>, clock: int, n: nat, q: Query, k: nat)
    requires ValidTable(rows) && IsNormalized(q) && SupportsCursor(q.sort)
    requires q.cursor.Absent? && q.offset == 0
    requires k < |FixedTableWalk(rows, clock, n, q)|
    ensures var p, o := FixedTableWalk(rows, clock, n, q)[k], OffsetPage(rows, q, clock, k);
      p.tasks == o.tasks && p.hasMore == o.hasMore
  {
    hide OffsetPage, FixedTableWalk, Slice, PageOffset, Listing;
    FixedWalkPage(rows, clock, n, q, k);
    SkippedIs(k, q.limit);
    OffsetPageIs(rows, q, clock, k);
    RemainingFromStart(rows, q, clock);
  }

  lemma RemainingFromStart(rows: seq<Task>, q: Query, clock: int)
    requires q.cursor.Absent? && q.offset == 0
    ensures Remaining(rows, q, clock) == Listing(rows, q, clock, None)
  {
  }

  // ----- walking a changing table -----

  predicate ValidTables(tables: seq<seq<Task>>)
  {
    forall k :: 0 <= k < |tables| ==> ValidTable(tables[k])
  }

  lemma PageStaysPast(rows: seq<Task>, clock: int, q: Query, t: Task)
    requires ValidTable(rows) && IsNormalized(q) && StartAfter(q).Ok? && StartAfter(q).value.Some?
    requires t in Remaining(rows, q, clock)
    ensures PastCursor(StartAfter(q).value.value, t)
  {
    hide Matches, Before, StartAfter, PastCursor, Listing;
    ListingSorted(rows, q, clock, StartAfter(q).value);
  }

  /** Every row returned past a cursor is past it, on whichever later state it was read. */
  lemma {:induction false} WalkStaysPast(tables: seq<seq<Task>>, clocks: seq<int>, q: Query, k: nat, t: Task)
    requires |tables| == |clocks| && IsNormalized(q) && ValidTables(tables)
    requires StartAfter(q).Ok? && StartAfter(q).value.Some?
    requires k < |Walk(tables, clocks, q)| && t in Walk(tables, clocks, q)[k].tasks
    ensures PastCursor(StartAfter(q).value.value, t)
    decreases k
  {
    hide Evaluate, Before, Matches, PastCursor, StartAfter, Remaining, CursorAfter, SupportsCursor, ValidTable;
    AcceptedCursor(q);
    PageStep(tables[0], q, clocks[0]);
    var p, r := Evaluate(tables[0], q, clocks[0]).value, Remaining(tables[0], q, clocks[0]);
    if k == 0 {
      PageStaysPast(tables[0], clocks[0], q, t);
    } else {
      WalkStaysPast(tables[1..], clocks[1..], Follow(q, p.next.value), k - 1, t);
      var last := r[q.limit - 1];
      PageStaysPast(tables[0], clocks[0], q, last);
      CursorIsPosition(q, last, t);
      PastIsUpward(q, last, t);
    }
  }

  /** Rows come out in strict key order across pages, even when each page reads a different state. */
  lemma {:induction false} WalkMovesForward(tables: seq<seq<Task>>, clocks: seq<int>, q: Query, i: nat, j: nat, a: Task, b: Task)
    requires |tables| == |clocks| && IsNormalized(q) && ValidTables(tables)
    requires SupportsCursor(q.sort) && StartAfter(q).Ok?
    requires i < j < |Walk(tables, clocks, q)|
    requires a in Walk(tables, clocks, q)[i].tasks && b in Walk(tables, clocks, q)[j].tasks
    ensures KeyBefore(Ascending(q), KeyTime(q, a), a.id, KeyTime(q, b), b.id)
    decreases i
  {
    hide Evaluate, KeyBefore, Before, Listing, Matches, PastCursor, StartAfter, CursorAfter, SupportsCursor, DistinctIds;
    PageStep(tables[0], q, clocks[0]);
    var p, r := Evaluate(tables[0], q, clocks[0]).value, Remaining(tables[0], q, clocks[0]);
    var q' := Follow(q, p.next.value);
    if i > 0 {
      WalkMovesForward(tables[1..], clocks[1..], q', i - 1, j - 1, a, b);
    } else {
      WalkStaysPast(tables[1..], clocks[1..], q', j - 1, b);
      var last := r[q.limit - 1];
      CursorIsPosition(q, last, b);
      ListingSorted(tables[0], q, clocks[0], StartAfter(q).value);
      var m :| 0 <= m < |p.tasks| && p.tasks[m] == a;
      assert r[m] == a;
      if m < q.limit - 1 {
        assert Before(q, r[m], last);
        CursorIsPosition(q, a, last);
        KeyTransitive(Ascending(q), KeyTime(q, a), a.id, KeyTime(q, last), last.id, KeyTime(q, b), b.id);
      }
    }
  }

  /** A task can come out twice only if its sort key moved forward between the two reads. */
  lemma RepeatedOnlyIfMovedForward(tables: seq<seq<Task>>, clocks: seq<int>, q: Query, i: nat, j: nat, a: Task, b: Task)
    requires |tables| == |clocks| && IsNormalized(q) && ValidTables(tables)
    requires SupportsCursor(q.sort)
    requires i < j < |Walk(tables, clocks, q)|
    requires a in Walk(tables, clocks, q)[i].tasks && b in Walk(tables, clocks, q)[j].tasks
    requires a.id == b.id
    ensures if Ascending(q) then KeyTime(q, a) < KeyTime(q, b) else KeyTime(q, b) < KeyTime(q, a)
  {
    WalkMovesForward(tables, clocks, q, i, j, a, b);
    KeyIrreflexive(Ascending(q), KeyTime(q, a), a.id);
  }

  /** Sorting by created_at, which never changes, no task is ever returned twice. */
  lemma CreatedAtNeverRepeats(tables: seq<seq<Task>>, clocks: seq<int>, q: Query, i: nat, j: nat, a: Task, b: Task)
    requires |tables| == |clocks| && IsNormalized(q) && ValidTables(tables)
    requires q.sort == "" || q.sort == SORT_CREATED_AT
    requires i < j < |Walk(tables, clocks, q)|
    requires a in Walk(tables, clocks, q)[i].tasks && b in Walk(tables, clocks, q)[j].tasks
    requires a.id == b.id ==> a.createdAt == b.createdAt
    ensures a.id != b.id
  {
    if a.id == b.id {
      RepeatedOnlyIfMovedForward(tables, clocks, q, i, j, a, b);
    }
  }

  /** The key of `t` is at or past the key of `s` in walking direction. */
  predicate NotMovedBack(q: Query, s: Task, t: Task)
  {
    if Ascending(q) then KeyTime(q, s) <= KeyTime(q, t) else KeyTime(q, t) <= KeyTime(q, s)
  }

  /** One row per state read: the same task, present, matching, and never moved backward. */
  predicate KeptInView(tables: seq<seq<Task>>, clocks: seq<int>, q: Query, track: seq<Task>)
    requires |tables| == |clocks|
  {
    && |track| == |tables|
    && (forall k :: 0 <= k < |track| ==> track[k] in tables[k] && Matches(q, clocks[k], track[k]) && track[k].id == track[0].id)
    && (forall k :: 0 < k < |track| ==> NotMovedBack(q, track[k - 1], track[k]))
  }

  lemma FollowMatches(q: Query, c: Cursor, clock: int, t: Task)
    ensures Matches(Follow(q, c), clock, t) <==> Matches(q, clock, t)
  {
  }

  /** A row in view is on the page just read, or past the cursor the page hands out. */
  lemma FoundOrAhead(rows: seq<Task>, q: Query, clock: int, t: Task)
    requires ValidTable(rows) && IsNormalized(q) && StartAfter(q).Ok? && SupportsCursor(q.sort)
    requires StartAfter(q).value.None? ==> q.offset == 0
    requires t in rows && Selected(q, clock, StartAfter(q).value, t)
    ensures Evaluate(rows, q, clock).Ok?
    ensures var p := Evaluate(rows, q, clock).value;
      || t in p.tasks
      || (p.next.Some? && PastCursor(p.next.value, t))
  {
    hide Evaluate, Listing, Matches, StartAfter, Before;
    PageStep(rows, q, clock);
    ListingSorted(rows, q, clock, StartAfter(q).value);
    var p, r := Evaluate(rows, q, clock).value, Remaining(rows, q, clock);
    var m :| 0 <= m < |r| && r[m] == t;
    if m < q.limit {
      assert p.tasks[m] == t;
    } else {
      assert Before(q, r[q.limit - 1], r[m]);
      CursorIsPosition(q, r[q.limit - 1], t);
    }
  }

  /** A row that does not move back stays past the cursor. */
  lemma StaysAhead(q: Query, c: Cursor, s: Task, t: Task)
    requires c.sort == SortOrDefault(q.sort) && c.order == OrderOrDefault(q.order)
    requires PastCursor(c, s) && NotMovedBack(q, s, t) && s.id == t.id
    ensures PastCursor(c, t)
  {
  }

  lemma {:induction false} WalkFinds(tables: seq<seq<Task>>, clocks: seq<int>, q: Query, track: seq<Task>)
    returns (k: nat)
    requires |tables| == |clocks| && tables != [] && IsNormalized(q) && ValidTables(tables)
    requires SupportsCursor(q.sort) && StartAfter(q).Ok? && KeptInView(tables, clocks, q, track)
    requires StartAfter(q).value.Some? ==> PastCursor(StartAfter(q).value.value, track[0])
    requires StartAfter(q).value.None? ==> q.offset == 0
    requires var w := Walk(tables, clocks, q); w != [] && !w[|w| - 1].hasMore
    ensures k < |Walk(tables, clocks, q)| && track[k] in Walk(tables, clocks, q)[k].tasks
    decreases |tables|
  {
    hide Evaluate, Matches, PastCursor, NotMovedBack, ValidTable, CursorAfter, Remaining, SupportsCursor;
    FoundOrAhead(tables[0], q, clocks[0], track[0]);
    var p := Evaluate(tables[0], q, clocks[0]).value;
    if track[0] in p.tasks {
      k := 0;
    } else {
      PageStep(tables[0], q, clocks[0]);
      var q' := Follow(q, p.next.value);
      assert Walk(tables, clocks, q) == [p] + Walk(tables[1..], clocks[1..], q');
      TailInView(tables, clocks, q, p.next.value, track);
      k := WalkFinds(tables[1..], clocks[1..], q', track[1..]);
      k := k + 1;
    }
  }

  lemma TailInView(tables: seq<seq<Task>>, clocks: seq<int>, q: Query, c: Cursor, track: seq<Task>)
    requires |tables| == |clocks| && |tables| > 1 && KeptInView(tables, clocks, q, track)
    requires c.sort == SortOrDefault(q.sort) && c.order == OrderOrDefault(q.order) && PastCursor(c, track[0])
    ensures PastCursor(c, track[1])
    ensures KeptInView(tables[1..], clocks[1..], Follow(q, c), track[1..])
  {
    hide Matches;
    assert NotMovedBack(q, track[0], track[1]);
    StaysAhead(q, c, track[0], track[1]);
    forall i | 0 <= i < |track[1..]|
      ensures track[1..][i] == track[i + 1] && Matches(Follow(q, c), clocks[1..][i], track[1..][i])
    {
      FollowMatches(q, c, clocks[i + 1], track[i + 1]);
    }
    forall i | 0 < i < |track[1..]|
      ensures NotMovedBack(Follow(q, c), track[1..][i - 1], track[1..][i])
    {
      assert NotMovedBack(q, track[i], track[i + 1]);
    }
  }

  /** A completed walk returns every task that is present and matching in all the states
      read and whose sort key never moved backward; for created_at the key never moves. */
  lemma WalkMissesNothing(tables: seq<seq<Task>>, clocks: seq<int>, q: Query, track: seq<Task>)
    requires |tables| == |clocks| && tables != [] && IsNormalized(q) && ValidTables(tables)
    requires SupportsCursor(q.sort) && q.cursor.Absent? && q.offset == 0
    requires KeptInView(tables, clocks, q, track)
    requires var w := Walk(tables, clocks, q); !w[|w| - 1].hasMore
    ensures exists k :: 0 <= k < |Walk(tables, clocks, q)| && track[k] in Walk(tables, clocks, q)[k].tasks
  {
    var k := WalkFinds(tables, clocks, q, track);
  }

  // ----- exactly what each page returns -----

  /** Between the cursor page `k` was read with and the one it hands out. */
  predicate InInterval(pages: seq<Page>, start: Option<Cursor>, k: nat, t: Task)
    requires k < |pages|
  {
    var from := if k == 0 then start else pages[k - 1].next;
    (from.Some? ==> PastCursor(from.value, t)) && (pages[k].next.Some? ==> !PastCursor(pages[k].next.value, t))
  }

  /** The first page of a walk returns the selected rows up to the cursor it hands out. */
  lemma FirstPageHolds(rows: seq<Task>, q: Query, clock: int, t: Task)
    requires ValidTable(rows) && IsNormalized(q) && StartAfter(q).Ok? && SupportsCursor(q.sort)
    requires StartAfter(q).value.None? ==> q.offset == 0
    ensures Evaluate(rows, q, clock).Ok?
    ensures var p := Evaluate(rows, q, clock).value;
      t in p.tasks <==> t in rows && Selected(q, clock, StartAfter(q).value, t) && (p.next.Some? ==> !PastCursor(p.next.value, t))
  {
    hide Evaluate, Listing, Matches, StartAfter, Before, PastCursor, CursorAfter, SupportsCursor;
    PageStep(rows, q, clock);
    ListingSorted(rows, q, clock, StartAfter(q).value);
    var p, r := Evaluate(rows, q, clock).value, Remaining(rows, q, clock);
    if t in rows && Selected(q, clock, StartAfter(q).value, t) {
      FoundOrAhead(rows, q, clock, t);
    }
    if t in p.tasks && p.next.Some? {
      var m :| 0 <= m < |p.tasks| && p.tasks[m] == t;
      var last := r[q.limit - 1];
      CursorIsPosition(q, last, t);
      NotAfterItself(q, r, m, q.limit - 1);
    }
  }

  lemma NotAfterItself(q: Query, s: seq<Task>, m: nat, last: nat)
    requires Sorted(q, s) && m <= last < |s|
    ensures !Before(q, s[last], s[m])
  {
    hide Before;
    BeforeIrreflexive(q, s[m]);
    if m < last && Before(q, s[last], s[m]) {
      BeforeTransitive(q, s[m], s[last], s[m]);
    }
  }

  /** Over a changing table, page `k` returns a row if and only if the row is present and matches in
      the state the page reads, past the cursor it was read with, and not past the one it hands out. */
  lemma {:induction false} PageHolds(tables: seq<seq<Task>>, clocks: seq<int>, q: Query, k: nat, t: Task)
    requires |tables| == |clocks| && IsNormalized(q) && ValidTables(tables)
    requires SupportsCursor(q.sort) && StartAfter(q).Ok? && (StartAfter(q).value.None? ==> q.offset == 0)
    requires k < |Walk(tables, clocks, q)|
    ensures var w := Walk(tables, clocks, q);
      t in w[k].tasks <==> t in tables[k] && Matches(q, clocks[k], t) && InInterval(w, StartAfter(q).value, k, t)
    decreases k
  {
    hide Evaluate, Matches, StartAfter, PastCursor, CursorAfter, SupportsCursor, DistinctIds, Remaining;
    FirstPageHolds(tables[0], q, clocks[0], t);
    var p := Evaluate(tables[0], q, clocks[0]).value;
    if k > 0 {
      PageStep(tables[0], q, clocks[0]);
      var q' := Follow(q, p.next.value);
      assert Walk(tables, clocks, q)[1..] == Walk(tables[1..], clocks[1..], q');
      PageHolds(tables[1..], clocks[1..], q', k - 1, t);
      FollowMatches(q, p.next.value, clocks[k], t);
    }
  }

  predicate Returns(pages: seq<Page>, k: nat, id: Id)
    requires k < |pages|
  {
    exists t :: t in pages[k].tasks && t.id == id
  }

  /** In the state page `k` read, the task is present, matches, and its key lies in the page's interval. */
  predicate Catches(tables: seq<seq<Task>>, clocks: seq<int>, q: Query, k: nat, id: Id)
    requires |tables| == |clocks| && IsNormalized(q) && k < |Walk(tables, clocks, q)| && StartAfter(q).Ok?
  {
    exists t :: t in tables[k] && t.id == id && Matches(q, clocks[k], t) && InInterval(Walk(tables, clocks, q), StartAfter(q).value, k, t)
  }

  lemma ReturnsIff(tables: seq<seq<Task>>, clocks: seq<int>, q: Query, k: nat, id: Id)
    requires |tables| == |clocks| && IsNormalized(q) && ValidTables(tables)
    requires SupportsCursor(q.sort) && StartAfter(q).Ok? && (StartAfter(q).value.None? ==> q.offset == 0)
    requires k < |Walk(tables, clocks, q)|
    ensures Returns(Walk(tables, clocks, q), k, id) <==> Catches(tables, clocks, q, k, id)
  {
    hide Walk, Matches, StartAfter, InInterval, SupportsCursor, ValidTables;
    forall t
      ensures var w := Walk(tables, clocks, q);
        t in w[k].tasks <==> t in tables[k] && Matches(q, clocks[k], t) && InInterval(w, StartAfter(q).value, k, t)
    {
      PageHolds(tables, clocks, q, k, t);
    }
  }

  /** A walk misses a task exactly when no page's interval holds its key in the state the page reads. */
  lemma MissedIff(tables: seq<seq<Task>>, clocks: seq<int>, q: Query, id: Id)
    requires |tables| == |clocks| && IsNormalized(q) && ValidTables(tables)
    requires SupportsCursor(q.sort) && StartAfter(q).Ok? && (StartAfter(q).value.None? ==> q.offset == 0)
    ensures var w := Walk(tables, clocks, q);
      (forall k: nat :: k < |w| ==> !Returns(w, k, id)) <==> (forall k: nat :: k < |w| ==> !Catches(tables, clocks, q, k, id))
  {
    hide Walk, Returns, Catches, StartAfter, SupportsCursor, ValidTables;
    forall k: nat | k < |Walk(tables, clocks, q)|
      ensures Returns(Walk(tables, clocks, q), k, id) <==> Catches(tables, clocks, q, k, id)
    {
      ReturnsIff(tables, clocks, q, k, id);
    }
  }

  /** It repeats a task exactly when the intervals of two pages do. */
  lemma RepeatedIff(tables: seq<seq<Task>>, clocks: seq<int>, q: Query, id: Id)
    requires |tables| == |clocks| && IsNormalized(q) && ValidTables(tables)
    requires SupportsCursor(q.sort) && StartAfter(q).Ok? && (StartAfter(q).value.None? ==> q.offset == 0)
    ensures var w := Walk(tables, clocks, q);
      (exists i: nat, j: nat :: i < j < |w| && Returns(w, i, id) && Returns(w, j, id))
      <==> (exists i: nat, j: nat :: i < j < |w| && Catches(tables, clocks, q, i, id) && Catches(tables, clocks, q, j, id))
  {
    hide Walk, Returns, Catches, StartAfter, SupportsCursor, ValidTables;
    forall k: nat | k < |Walk(tables, clocks, q)|
      ensures Returns(Walk(tables, clocks, q), k, id) <==> Catches(tables, clocks, q, k, id)
    {
      ReturnsIff(tables, clocks, q, k, id);
    }
  }

  // ----- what a page is, told on the rows -----

  /** The total of a page counts the positions of the table whose row meets every condition asked for. */
  lemma TotalCounts(rows: seq<Task>, q: Query, clock: int) returns (hits: set<int>)
    requires IsNormalized(q) && Evaluate(rows, q, clock).Ok?
    ensures Evaluate(rows, q, clock).value.total == |hits|
    ensures forall k :: k in hits <==>
      && 0 <= k < |rows|
      && rows[k].team == q.team
      && (q.status.Some? ==> rows[k].status == q.status.value)
      && (q.assignee.Some? ==> rows[k].assignee == q.assignee)
      && (q.priority.Some? ==> rows[k].priority == q.priority.value)
      && (q.overdue ==> rows[k].dueAt.Some? && rows[k].dueAt.value < clock && rows[k].status != Done && rows[k].status != Cancelled)
      && (q.search != "" ==> exists i :: Like.OccursAt(q.search, rows[k].title, i, SameChar))
  {
    hide Matches, Fetch, StartAfter, Like.OccursAt, SameChar;
    hits := FilterCounts(t => Matches(q, clock, t), rows);
    forall t {
      MatchesIff(q, clock, t);
    }
  }

  /** A row is on some offset page exactly when it is in the table and meets every condition asked for. */
  lemma OffsetPagesListExactly(rows: seq<Task>, q: Query, clock: int, t: Task)
    requires DistinctIds(rows) && IsNormalized(q)
    ensures (exists k: nat :: t in OffsetPage(rows, q, clock, k).tasks) <==>
      && t in rows
      && t.team == q.team
      && (q.status.Some? ==> t.status == q.status.value)
      && (q.assignee.Some? ==> t.assignee == q.assignee)
      && (q.priority.Some? ==> t.priority == q.priority.value)
      && (q.overdue ==> t.dueAt.Some? && t.dueAt.value < clock && t.status != Done && t.status != Cancelled)
      && (q.search != "" ==> exists i :: Like.OccursAt(q.search, t.title, i, SameChar))
  {
    hide OffsetPage, Matches, Like.OccursAt, SameChar;
    OffsetPagesPartition(rows, q, clock, t);
    MatchesIff(q, clock, t);
  }

  /** Over a changing table, the same of page `k` of a walk, between its two cursors. */
  lemma WalkPagesListExactly(tables: seq<seq<Task>>, clocks: seq<int>, q: Query, k: nat, t: Task)
    requires |tables| == |clocks| && IsNormalized(q) && ValidTables(tables)
    requires SupportsCursor(q.sort) && StartAfter(q).Ok? && (StartAfter(q).value.None? ==> q.offset == 0)
    requires k < |Walk(tables, clocks, q)|
    ensures var w := Walk(tables, clocks, q);
      t in w[k].tasks <==>
      && t in tables[k]
      && t.team == q.team
      && (q.status.Some? ==> t.status == q.status.value)
      && (q.assignee.Some? ==> t.assignee == q.assignee)
      && (q.priority.Some? ==> t.priority == q.priority.value)
      && (q.overdue ==> t.dueAt.Some? && t.dueAt.value < clocks[k] && t.status != Done && t.status != Cancelled)
      && (q.search != "" ==> exists i :: Like.OccursAt(q.search, t.title, i, SameChar))
      && InInterval(w, StartAfter(q).value, k, t)
  {
    hide Walk, Matches, StartAfter, InInterval, SupportsCursor, ValidTables, Like.OccursAt, SameChar;
    PageHolds(tables, clocks, q, k, t);
    MatchesIff(q, clocks[k], t);
  }

  /** Any two rows of a page, told on the sort and order asked for: newest first unless asked
      otherwise, ties by id, tasks without a due date last, equal priorities newest first. */
  lemma PageIsOrdered(rows: seq<Task>, q: Query, clock: int, i: nat, j: nat)
    requires DistinctIds(rows) && IsNormalized(q) && Evaluate(rows, q, clock).Ok?
    requires i < j < |Evaluate(rows, q, clock).value.tasks|
    ensures var p := Evaluate(rows, q, clock).value.tasks;
      var a, b, up := p[i], p[j], q.order == "asc";
      var ids := if up then Lex(a.id, b.id) else Lex(b.id, a.id);
      if q.sort == "updated_at" then
        (if up then a.updatedAt < b.updatedAt else b.updatedAt < a.updatedAt) || (a.updatedAt == b.updatedAt && ids)
      else if q.sort == "due_at" then
        || (a.dueAt.Some? && b.dueAt.None?)
        || (a.dueAt.Some? && b.dueAt.Some? && if up then a.dueAt.value < b.dueAt.value else b.dueAt.value < a.dueAt.value)
        || (a.dueAt == b.dueAt && ids)
      else if q.sort == "priority" then
        || (if up then a.priority.Rank() < b.priority.Rank() else b.priority.Rank() < a.priority.Rank())
        || (a.priority == b.priority && (b.createdAt < a.createdAt || (a.createdAt == b.createdAt && Lex(b.id, a.id))))
      else
        (if up then a.createdAt < b.createdAt else b.createdAt < a.createdAt) || (a.createdAt == b.createdAt && ids)
    ensures Low.Rank() < Medium.Rank() < High.Rank() < Urgent.Rank()
  {
    var p := Evaluate(rows, q, clock).value.tasks;
    PageIsSorted(rows, q, clock, i, j);
    hide Evaluate, Lex;
    assert Before(q, p[i], p[j]);
  }

  lemma PageIsSorted(rows: seq<Task>, q: Query, clock: int, i: nat, j: nat)
    requires DistinctIds(rows) && IsNormalized(q) && Evaluate(rows, q, clock).Ok?
    requires i < j < |Evaluate(rows, q, clock).value.tasks|
    ensures var p := Evaluate(rows, q, clock).value.tasks; Before(q, p[i], p[j])
  {
    hide Evaluate, Before, Listing, StartAfter, SupportsCursor, CursorAfter, Matches;
    AnsweredIsAccepted(rows, q, clock);
    PageTakes(rows, q, clock);
    ListingSorted(rows, q, clock, StartAfter(q).value);
    var o := RemainingIsSuffix(rows, q, clock);
    var s, r := Listing(rows, q, clock, StartAfter(q).value), Remaining(rows, q, clock);
    assert r[i] == s[o + i] && r[j] == s[o + j];
  }

  lemma AnsweredIsAccepted(rows: seq<Task>, q: Query, clock: int)
    requires IsNormalized(q)
    ensures Evaluate(rows, q, clock).Ok? <==> StartAfter(q).Ok?
  {
    hide Fetch, Count, StartAfter, Assemble;
  }

  /** Which cursor a listing accepts: none, or one that names a position in the same sort and order. */
  lemma CursorAcceptedIff(q: Query)
    ensures StartAfter(q) == match q.cursor
      case Absent => Ok(None)
      case Garbled => Err(InvalidInput)
      case Given(c) =>
        if (q.sort == "" || q.sort == "created_at" || q.sort == "updated_at") && c.id != "" && c.time != -62135596800
           && c.sort == (if q.sort == "" then "created_at" else q.sort) && c.order == (if q.order == "" then "desc" else q.order)
        then Ok(Some(c)) else Err(InvalidInput)
  {
  }

  /** The page echoes the limit and offset used: 20 rows unless asked, never over 100, never a negative offset. */
  lemma PageEchoes(rows: seq<Task>, q: Query, clock: int)
    requires Evaluate(rows, Normalized(q), clock).Ok?
    ensures var p := Evaluate(rows, Normalized(q), clock).value;
      && p.limit == (if q.limit <= 0 then 20 else if q.limit > 100 then 100 else q.limit)
      && p.offset == (if q.offset < 0 then 0 else q.offset)
      && |p.tasks| <= p.limit
  {
    hide Listing, Count, StartAfter, CursorAfter;
  }

  // ----- sorting by updated_at while tasks are being edited -----

  function EditedTask(id: Id, updatedAt: int): Task
  {
    Task(id, "team", "title", "", Todo, Medium, None, "user", None, 0, updatedAt, None, 1)
  }

  function ByUpdate(order: string, cursor: CursorArg): Query
  {
    Query("team", None, None, None, false, "", SORT_UPDATED_AT, order, 1, 0, cursor)
  }

  /** One page of one row over two rows listed in the order `first`, `second`. */
  lemma TwoRowPage(first: Task, second: Task, rows: seq<Task>, q: Query, clock: int)
    requires rows == [first, second] || rows == [second, first]
    requires IsNormalized(q) && q.limit == 1 && q.offset == 0 && StartAfter(q).Ok? && SupportsCursor(q.sort)
    requires Selected(q, clock, StartAfter(q).value, first) && Selected(q, clock, StartAfter(q).value, second)
    requires first.id != second.id && Before(q, first, second)
    ensures Evaluate(rows, q, clock).Ok?
    ensures var p := Evaluate(rows, q, clock).value; p.tasks == [first] && p.next == Some(CursorAfter(first, q.sort, q.order))
  {
    hide Matches, PastCursor, Before, StartAfter;
    var after := StartAfter(q).value;
    PageTakes(rows, q, clock);
    ListingSorted(rows, q, clock, after);
    forall t
      ensures t in Listing(rows, q, clock, after) <==> t in [first, second]
    {
    }
    SortedUnique(q, Listing(rows, q, clock, after), [first, second]);
  }

  /** One page over a table with a single selected row. */
  lemma OneRowPage(only: Option<Task>, rows: seq<Task>, q: Query, clock: int)
    requires DistinctIds(rows) && IsNormalized(q) && q.limit == 1 && q.offset == 0 && StartAfter(q).Ok?
    requires forall t :: t in rows && Selected(q, clock, StartAfter(q).value, t) <==> only == Some(t)
    ensures Evaluate(rows, q, clock).Ok?
    ensures var p := Evaluate(rows, q, clock).value;
      p.next == None && !p.hasMore && p.tasks == if only.Some? then [only.value] else []
  {
    hide Matches, PastCursor, Before, StartAfter;
    var after := StartAfter(q).value;
    PageTakes(rows, q, clock);
    ListingSorted(rows, q, clock, after);
    SortedUnique(q, Listing(rows, q, clock, after), if only.Some? then [only.value] else []);
  }

  const BEFORE_EDIT := [EditedTask("a", 1), EditedTask("b", 2)]
  const AFTER_EDIT := [EditedTask("a", 3), EditedTask("b", 2)]

  /** What the pages below read: task "a" is edited after the first of them. */
  lemma EditedPages()
    ensures var q := ByUpdate("asc", Absent); var p := Evaluate(BEFORE_EDIT, q, 0);
      p.Ok? && p.value.tasks == [BEFORE_EDIT[0]] && p.value.next == Some(CursorAfter(BEFORE_EDIT[0], q.sort, q.order))
    ensures var q := ByUpdate("desc", Absent); var p := Evaluate(BEFORE_EDIT, q, 0);
      p.Ok? && p.value.tasks == [BEFORE_EDIT[1]] && p.value.next == Some(CursorAfter(BEFORE_EDIT[1], q.sort, q.order))
  {
    TwoRowPage(BEFORE_EDIT[0], BEFORE_EDIT[1], BEFORE_EDIT, ByUpdate("asc", Absent), 0);
    TwoRowPage(BEFORE_EDIT[1], BEFORE_EDIT[0], BEFORE_EDIT, ByUpdate("desc", Absent), 0);
  }

  lemma EditedAscending()
    ensures var q := Follow(ByUpdate("asc", Absent), CursorAfter(BEFORE_EDIT[0], SORT_UPDATED_AT, "asc"));
      var p := Evaluate(AFTER_EDIT, q, 0);
      p.Ok? && p.value.tasks == [AFTER_EDIT[1]] && p.value.next == Some(CursorAfter(AFTER_EDIT[1], q.sort, q.order))
    ensures var q := Follow(ByUpdate("asc", Absent), CursorAfter(AFTER_EDIT[1], SORT_UPDATED_AT, "asc"));
      var p := Evaluate(AFTER_EDIT, q, 0);
      p.Ok? && p.value.tasks == [AFTER_EDIT[0]] && p.value.next == None
  {
    TwoRowPage(AFTER_EDIT[1], AFTER_EDIT[0], AFTER_EDIT,
               Follow(ByUpdate("asc", Absent), CursorAfter(BEFORE_EDIT[0], SORT_UPDATED_AT, "asc")), 0);
    LexIrreflexive("b");
    OneRowPage(Some(AFTER_EDIT[0]), AFTER_EDIT,
               Follow(ByUpdate("asc", Absent), CursorAfter(AFTER_EDIT[1], SORT_UPDATED_AT, "asc")), 0);
  }

  lemma EditedDescending()
    ensures var q := Follow(ByUpdate("desc", Absent), CursorAfter(BEFORE_EDIT[1], SORT_UPDATED_AT, "desc"));
      var p := Evaluate(AFTER_EDIT, q, 0);
      p.Ok? && p.value.tasks == [] && p.value.next == None && !p.value.hasMore
  {
    LexIrreflexive("b");
    OneRowPage(None, AFTER_EDIT, Follow(ByUpdate("desc", Absent), CursorAfter(BEFORE_EDIT[1], SORT_UPDATED_AT, "desc")), 0);
  }

  /** Ascending by updated_at, editing a returned task brings it back on a later page. */
  lemma UpdatedAtCanRepeat()
    ensures ValidTables([BEFORE_EDIT, AFTER_EDIT, AFTER_EDIT])
    ensures var w := Walk([BEFORE_EDIT, AFTER_EDIT, AFTER_EDIT], [0, 0, 0], ByUpdate("asc", Absent));
      |w| == 3 && w[0].tasks == [EditedTask("a", 1)] && w[2].tasks == [EditedTask("a", 3)]
  {
    EditedPages();
    EditedAscending();
    hide Evaluate;
    var q := ByUpdate("asc", Absent);
    var q1 := Follow(q, CursorAfter(BEFORE_EDIT[0], q.sort, q.order));
    var q2 := Follow(q1, CursorAfter(AFTER_EDIT[1], q.sort, q.order));
    var w2 := Walk([AFTER_EDIT], [0], q2);
    assert w2 == [Evaluate(AFTER_EDIT, q2, 0).value];
    var w1 := Walk([AFTER_EDIT, AFTER_EDIT], [0, 0], q1);
    assert [AFTER_EDIT, AFTER_EDIT][1..] == [AFTER_EDIT] && [0, 0][1..] == [0];
    assert w1 == [Evaluate(AFTER_EDIT, q1, 0).value] + w2;
    assert [BEFORE_EDIT, AFTER_EDIT, AFTER_EDIT][1..] == [AFTER_EDIT, AFTER_EDIT] && [0, 0, 0][1..] == [0, 0];
    assert Walk([BEFORE_EDIT, AFTER_EDIT, AFTER_EDIT], [0, 0, 0], q) == [Evaluate(BEFORE_EDIT, q, 0).value] + w1;
  }

  /** Descending by updated_at, editing a task not yet reached makes the completed walk
      miss it, although it is present and matching in both states read. */
  lemma UpdatedAtCanMiss()
    ensures ValidTables([BEFORE_EDIT, AFTER_EDIT])
    ensures Matches(ByUpdate("desc", Absent), 0, EditedTask("a", 1)) && Matches(ByUpdate("desc", Absent), 0, EditedTask("a", 3))
    ensures var w := Walk([BEFORE_EDIT, AFTER_EDIT], [0, 0], ByUpdate("desc", Absent));
      |w| == 2 && !w[1].hasMore && w[0].tasks == [EditedTask("b", 2)] && w[1].tasks == []
  {
    EditedPages();
    EditedDescending();
    hide Evaluate;
    var q := ByUpdate("desc", Absent);
    var q1 := Follow(q, CursorAfter(BEFORE_EDIT[1], q.sort, q.order));
    var w1 := Walk([AFTER_EDIT], [0], q1);
    assert w1 == [Evaluate(AFTER_EDIT, q1, 0).value];
    assert [BEFORE_EDIT, AFTER_EDIT][1..] == [AFTER_EDIT] && [0, 0][1..] == [0];
    assert Walk([BEFORE_EDIT, AFTER_EDIT], [0, 0], q) == [Evaluate(BEFORE_EDIT, q, 0).value] + w1;
  }
}
