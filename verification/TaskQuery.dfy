/** Task listings: the filter, the four orderings, keyset cursors and page assembly. */
module TaskQuery {
  import opened Domain
  import opened Sequences
  import Like

  const DEFAULT_PAGE_SIZE := 20
  const MAX_PAGE_SIZE := 100

  const SORT_CREATED_AT := "created_at"
  const SORT_UPDATED_AT := "updated_at"
  const SORT_DUE_AT := "due_at"
  const SORT_PRIORITY := "priority"

  /** A position in a listing: "the rows after (time, id) in this sort order". */
  datatype Cursor = Cursor(sort: string, order: string, time: int, id: Id)

  /** The cursor request parameter: absent, undecodable, or an exactly decoded cursor. */
  datatype CursorArg = Absent | Garbled | Given(cursor: Cursor)

  datatype Query = Query(
    team: Id,
    status: Option<Status>,
    assignee: Option<Id>,
    priority: Option<Priority>,
    overdue: bool,
    search: string,
    sort: string,
    order: string,
    limit: int,
    offset: int,
    cursor: CursorArg)

  datatype Page = Page(tasks: seq<Task>, total: nat, limit: int, offset: int, hasMore: bool, next: Option<Cursor>)

  // ----- request normalisation and cursors -----

  function Normalized(q: Query): Query
  {
    q.(limit := if q.limit <= 0 then DEFAULT_PAGE_SIZE else if q.limit > MAX_PAGE_SIZE then MAX_PAGE_SIZE else q.limit,
       offset := if q.offset < 0 then 0 else q.offset)
  }

  predicate IsNormalized(q: Query)
  {
    1 <= q.limit <= MAX_PAGE_SIZE && 0 <= q.offset
  }

  predicate SupportsCursor(sort: string)
  {
    sort == "" || sort == SORT_CREATED_AT || sort == SORT_UPDATED_AT
  }

  function SortOrDefault(sort: string): string
  {
    if sort == "" then SORT_CREATED_AT else sort
  }

  function OrderOrDefault(order: string): string
  {
    if order == "" then "desc" else order
  }

  function CursorAfter(t: Task, sort: string, order: string): Cursor
  {
    var s := SortOrDefault(sort);
    Cursor(s, OrderOrDefault(order), if s == SORT_UPDATED_AT then t.updatedAt else t.createdAt, t.id)
  }

  function DecodeCursor(arg: CursorArg, sort: string, order: string): Result<Cursor>
  {
    match arg
    case Absent => Err(InvalidInput)
    case Garbled => Err(InvalidInput)
    case Given(c) =>
      if c.id == "" || c.time == ZERO_TIME then Err(InvalidInput)
      else if c.sort != SortOrDefault(sort) || c.order != OrderOrDefault(order) then Err(InvalidInput)
      else Ok(c)
  }

  /** The keyset position a request asks for, or the reason it is refused. */
  function StartAfter(q: Query): Result<Option<Cursor>>
  {
    if q.cursor.Absent? then Ok(None)
    else if !SupportsCursor(q.sort) then Err(InvalidInput)
    else
      match DecodeCursor(q.cursor, q.sort, q.order)
      case Ok(c) => Ok(Some(c))
      case Err(e) => Err(e)
  }

  // ----- the SQL statements -----

  /** ASCII case folding stands for the column collation. */
  function Fold(c: char): char
  {
    if 'A' <= c <= 'Z' then (c as int + 32) as char else c
  }

  predicate SameChar(a: char, b: char)
  {
    Fold(a) == Fold(b)
  }

  /** The WHERE clause shared by List and Count; `clock` is UTC_TIMESTAMP(). */
  predicate Matches(q: Query, clock: int, t: Task)
  {
    && t.team == q.team
    && (q.status.Some? ==> t.status == q.status.value)
    && (q.assignee.Some? ==> t.assignee == q.assignee)
    && (q.priority.Some? ==> t.priority == q.priority.value)
    && (q.overdue ==> t.dueAt.Some? && t.dueAt.value < clock && t.status != Done && t.status != Cancelled)
    && (q.search != "" ==> Like.Matches(Like.SearchPattern(q.search), t.title, SameChar))
  }

  /** The filter, condition by condition: a search is a literal, contiguous occurrence in the title. */
  lemma MatchesIff(q: Query, clock: int, t: Task)
    ensures Matches(q, clock, t) <==>
      && t.team == q.team
      && (q.status.Some? ==> t.status == q.status.value)
      && (q.assignee.Some? ==> t.assignee == q.assignee)
      && (q.priority.Some? ==> t.priority == q.priority.value)
      && (q.overdue ==> t.dueAt.Some? && t.dueAt.value < clock && t.status != Done && t.status != Cancelled)
      && (q.search != "" ==> exists i :: Like.OccursAt(q.search, t.title, i, SameChar))
  {
    Like.SearchIsSubstring(q.search, t.title, SameChar);
  }

  /** Characters compare equal up to the case of ASCII letters. */
  lemma SameCharIff(a: char, b: char)
    ensures SameChar(a, b) <==> a == b || ('A' <= a <= 'Z' && b as int == a as int + 32) || ('A' <= b <= 'Z' && a as int == b as int + 32)
  {
  }

  /** `ORDER BY column dir, id dir`. */
  predicate KeyBefore(asc: bool, time: int, id: Id, time': int, id': Id)
  {
    if asc then time < time' || (time == time' && Lex(id, id'))
    else time' < time || (time == time' && Lex(id', id))
  }

  predicate Ascending(q: Query)
  {
    q.order == "asc"
  }

  /** The ORDER BY clause: `a` sorts strictly before `b`. */
  predicate Before(q: Query, a: Task, b: Task)
  {
    if q.sort == SORT_UPDATED_AT then
      KeyBefore(Ascending(q), a.updatedAt, a.id, b.updatedAt, b.id)
    else if q.sort == SORT_DUE_AT then
      if a.dueAt.None? || b.dueAt.None? then
        if a.dueAt.None? && b.dueAt.None? then KeyBefore(Ascending(q), 0, a.id, 0, b.id) else b.dueAt.None?
      else
        KeyBefore(Ascending(q), a.dueAt.value, a.id, b.dueAt.value, b.id)
    else if q.sort == SORT_PRIORITY then
      if a.priority != b.priority then
        if Ascending(q) then a.priority.Rank() < b.priority.Rank() else b.priority.Rank() < a.priority.Rank()
      else
        KeyBefore(false, a.createdAt, a.id, b.createdAt, b.id)
    else
      KeyBefore(Ascending(q), a.createdAt, a.id, b.createdAt, b.id)
  }

  /** The keyset predicate added to the WHERE clause. */
  predicate PastCursor(c: Cursor, t: Task)
  {
    KeyBefore(c.order == "asc", c.time, c.id, if c.sort == SORT_UPDATED_AT then t.updatedAt else t.createdAt, t.id)
  }

  predicate Selected(q: Query, clock: int, after: Option<Cursor>, t: Task)
  {
    Matches(q, clock, t) && (after.Some? ==> PastCursor(after.value, t))
  }

  function Insert(q: Query, t: Task, s: seq<Task>): (r: seq<Task>)
    ensures |r| == |s| + 1
    ensures forall x :: x in r <==> x == t || x in s
  {
    if s == [] || Before(q, t, s[0]) then [t] + s else [s[0]] + Insert(q, t, s[1..])
  }

  function SortRows(q: Query, rows: seq<Task>): (r: seq<Task>)
    ensures |r| == |rows|
    ensures forall x :: x in r <==> x in rows
  {
    if rows == [] then [] else Insert(q, rows[0], SortRows(q, rows[1..]))
  }

  function Slice(s: seq<Task>, offset: nat, limit: nat): seq<Task>
  {
    if offset >= |s| then [] else if offset + limit >= |s| then s[offset..] else s[offset..offset + limit]
  }

  /** The rows a listing ranges over, in listing order. */
  function Listing(rows: seq<Task>, q: Query, clock: int, after: Option<Cursor>): seq<Task>
  {
    SortRows(q, Filter(t => Selected(q, clock, after, t), rows))
  }

  /** `SELECT ... WHERE ... ORDER BY ... LIMIT limit OFFSET offset`; a cursor overrides the offset. */
  function List(rows: seq<Task>, q: Query, clock: int, limit: nat, after: Option<Cursor>): seq<Task>
    requires 0 <= q.offset
  {
    Slice(Listing(rows, q, clock, after), if after.Some? then 0 else q.offset, limit)
  }

  function Count(rows: seq<Task>, q: Query, clock: int): nat
  {
    |Filter(t => Matches(q, clock, t), rows)|
  }

  // ----- the page -----

  /** One row more than the page is fetched; it only says whether another page exists. */
  function Fetch(rows: seq<Task>, q: Query, clock: int, after: Option<Cursor>): seq<Task>
    requires IsNormalized(q)
  {
    List(rows, q, clock, q.limit + 1, after)
  }

  function Assemble(q: Query, fetched: seq<Task>, total: nat): Page
    requires IsNormalized(q)
  {
    var hasMore := |fetched| > q.limit;
    var tasks := if hasMore then fetched[..q.limit] else fetched;
    Page(tasks, total, q.limit, q.offset, hasMore,
         if hasMore && SupportsCursor(q.sort) then Some(CursorAfter(tasks[|tasks| - 1], q.sort, q.order)) else None)
  }

  /** Direct evaluation of a normalised query against one table state. */
  function Evaluate(rows: seq<Task>, q: Query, clock: int): Result<Page>
    requires IsNormalized(q)
  {
    match StartAfter(q)
    case Err(e) => Err(e)
    case Ok(after) => Ok(Assemble(q, Fetch(rows, q, clock, after), Count(rows, q, clock)))
  }

  lemma ListedIff(rows: seq<Task>, q: Query, clock: int, after: Option<Cursor>, t: Task)
    ensures t in Listing(rows, q, clock, after) <==> t in rows && Selected(q, clock, after, t)
  {
    hide Matches, PastCursor, Before;
  }

  lemma PageIsPart(rows: seq<Task>, q: Query, clock: int)
    requires IsNormalized(q) && Evaluate(rows, q, clock).Ok? && StartAfter(q).Ok?
    ensures var p, s := Evaluate(rows, q, clock).value, Listing(rows, q, clock, StartAfter(q).value);
      && (forall t :: t in p.tasks ==> t in s)
      && (q.cursor.Absent? && q.offset == 0 && !p.hasMore ==> p.tasks == s)
  {
    hide Listing, Count, CursorAfter, SupportsCursor;
  }

  /** What a page lists, told on the rows. */
  lemma PageLists(rows: seq<Task>, q: Query, clock: int)
    requires IsNormalized(q)
    ensures Evaluate(rows, q, clock).Ok? ==> forall t :: t in Evaluate(rows, q, clock).value.tasks ==>
      && t in rows && t.team == q.team
      && (q.status.Some? ==> t.status == q.status.value)
      && (q.assignee.Some? ==> t.assignee == q.assignee)
      && (q.priority.Some? ==> t.priority == q.priority.value)
      && (q.overdue ==> t.dueAt.Some? && t.dueAt.value < clock && t.status != Done && t.status != Cancelled)
      && (q.search != "" ==> exists i :: Like.OccursAt(q.search, t.title, i, SameChar))
    ensures Evaluate(rows, q, clock).Ok? && q.cursor.Absent? && q.offset == 0 && !Evaluate(rows, q, clock).value.hasMore ==> forall t ::
      && t in rows && t.team == q.team
      && (q.status.Some? ==> t.status == q.status.value)
      && (q.assignee.Some? ==> t.assignee == q.assignee)
      && (q.priority.Some? ==> t.priority == q.priority.value)
      && (q.overdue ==> t.dueAt.Some? && t.dueAt.value < clock && t.status != Done && t.status != Cancelled)
      && (q.search != "" ==> exists i :: Like.OccursAt(q.search, t.title, i, SameChar))
      ==> t in Evaluate(rows, q, clock).value.tasks
  {
    hide Listing, Matches, PastCursor, Fetch, Count, Assemble, SameChar, Like.OccursAt;
    if Evaluate(rows, q, clock).Ok? {
      PageIsPart(rows, q, clock);
      forall t {
        ListedIff(rows, q, clock, StartAfter(q).value, t);
      }
      forall t {
        MatchesIff(q, clock, t);
      }
    }
  }

  /** The request object that ListTasks normalises in place. */
  class ListRequest {
    var query: Query

    constructor (q: Query)
      ensures query == q
    {
      query := q;
    }

    method NormalizePage()
      modifies this
      ensures query == Normalized(old(query)) && IsNormalized(query)
    {
      if query.limit <= 0 {
        query := query.(limit := DEFAULT_PAGE_SIZE);
      }
      if query.limit > MAX_PAGE_SIZE {
        query := query.(limit := MAX_PAGE_SIZE);
      }
      if query.offset < 0 {
        query := query.(offset := 0);
      }
    }

    /** ListTasks on a cache miss, with no writer between its two reads. */
    method ListTasks(rows: seq<Task>, clock: int) returns (r: Result<Page>)
      modifies this
      ensures query == Normalized(old(query)) && IsNormalized(query)
      ensures r == Evaluate(rows, query, clock)
      ensures r.Ok? ==> forall t :: t in r.value.tasks ==>
        && t in rows && t.team == query.team
        && (query.status.Some? ==> t.status == query.status.value)
        && (query.assignee.Some? ==> t.assignee == query.assignee)
        && (query.priority.Some? ==> t.priority == query.priority.value)
        && (query.overdue ==> t.dueAt.Some? && t.dueAt.value < clock && t.status != Done && t.status != Cancelled)
        && (query.search != "" ==> exists i :: Like.OccursAt(query.search, t.title, i, SameChar))
      ensures r.Ok? && query.cursor.Absent? && query.offset == 0 && !r.value.hasMore ==> forall t ::
        && t in rows && t.team == query.team
        && (query.status.Some? ==> t.status == query.status.value)
        && (query.assignee.Some? ==> t.assignee == query.assignee)
        && (query.priority.Some? ==> t.priority == query.priority.value)
        && (query.overdue ==> t.dueAt.Some? && t.dueAt.value < clock && t.status != Done && t.status != Cancelled)
        && (query.search != "" ==> exists i :: Like.OccursAt(query.search, t.title, i, SameChar))
        ==> t in r.value.tasks
    {
      hide Listing, Count, CursorAfter, SameChar, Like.OccursAt;
      NormalizePage();
      var after := None;
      if !query.cursor.Absent? {
        if !SupportsCursor(query.sort) {
          return Err(InvalidInput);
        }
        var c := DecodeCursor(query.cursor, query.sort, query.order);
        if c.Err? {
          return Err(c.error);
        }
        after := Some(c.value);
      }
      var tasks := List(rows, query, clock, query.limit + 1, after);
      var total := Count(rows, query, clock);
      var hasMore := |tasks| > query.limit;
      if hasMore {
        tasks := tasks[..query.limit];
      }
      var page := Page(tasks, total, query.limit, query.offset, hasMore, None);
      if hasMore && SupportsCursor(query.sort) {
        page := page.(next := Some(CursorAfter(tasks[|tasks| - 1], query.sort, query.order)));
      }
      r := Ok(page);
      PageLists(rows, query, clock);
    }
  }
}
