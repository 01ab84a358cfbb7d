/** Entities, request records and typed errors shared by every component. */
module Domain {

  datatype Option<+T> = None | Some(value: T)

  datatype Result<+T> = Ok(value: T) | Err(error: Error)

  /** Business errors by code; client messages carry no behaviour. */
  datatype Error =
    | InvalidInput
    | NotFound
    | AlreadyExists
    | VersionConflict
    | InvalidCredentials
    | Forbidden
    | AssigneeNotInTeam
    | Unavailable
    | Internal

  /** Team, user and task identifiers (UUID strings). */
  type Id = string

  datatype Role = Owner | Admin | Member {
    predicate IsManager() { this == Owner || this == Admin }
  }

  datatype Status = Todo | InProgress | Review | Done | Cancelled {
    predicate IsTerminal() { this == Done || this == Cancelled }
  }

  datatype Priority = Low | Medium | High | Urgent {
    /** ENUM columns compare by declaration order. */
    function Rank(): nat {
      match this
      case Low => 0
      case Medium => 1
      case High => 2
      case Urgent => 3
    }
  }

  /** A row of the tasks table; times are whole seconds. */
  datatype Task = Task(
    id: Id,
    team: Id,
    title: string,
    description: string,
    status: Status,
    priority: Priority,
    dueAt: Option<int>,
    createdBy: Id,
    assignee: Option<Id>,
    createdAt: int,
    updatedAt: int,
    closedAt: Option<int>,
    version: int)
  {
    predicate IsAssignee(user: Id) { assignee == Some(user) }

    /** One of the team's tasks, assigned to the user. */
    predicate AssignedTo(team: Id, user: Id) { this.team == team && assignee == Some(user) }

    /** The row after its assignee is taken off. */
    function Unassigned(now: int): Task { this.(assignee := None, updatedAt := now, version := version + 1) }

    predicate IsOverdue(now: int) { dueAt.Some? && dueAt.value < now && !status.IsTerminal() }
  }

  /** Go's zero time.Time, which a cursor may never carry. */
  const ZERO_TIME: int := -62135596800
}

/** Filtering and the lexicographic order of identifiers and names. */
module Sequences {

  function Filter<T(!new)>(p: T -> bool, s: seq<T>): (r: seq<T>)
    ensures |r| <= |s|
    ensures forall x :: x in r <==> x in s && p(x)
  {
    if s == [] then [] else (if p(s[0]) then [s[0]] else []) + Filter(p, s[1..])
  }

  lemma {:induction false} FilterConcat<T(!new)>(p: T -> bool, a: seq<T>, b: seq<T>)
    ensures Filter(p, a + b) == Filter(p, a) + Filter(p, b)
  {
    if a == [] {
      assert a + b == b;
    } else {
      assert (a + b)[1..] == a[1..] + b;
      FilterConcat(p, a[1..], b);
    }
  }

  /** Filtering twice keeps what passes both tests. */
  lemma {:induction false} FilterFilter<T(!new)>(outer: T -> bool, inner: T -> bool, both: T -> bool, s: seq<T>)
    requires forall x :: both(x) <==> inner(x) && outer(x)
    ensures Filter(outer, Filter(inner, s)) == Filter(both, s)
  {
    if s != [] {
      FilterFilter(outer, inner, both, s[1..]);
      if inner(s[0]) {
        FilterConcat(outer, [s[0]], Filter(inner, s[1..]));
        assert [s[0]][1..] == [];
        assert Filter(inner, s) == [s[0]] + Filter(inner, s[1..]);
      } else {
        assert Filter(inner, s) == Filter(inner, s[1..]);
      }
    }
  }

  lemma {:induction false} FilterSame<T(!new)>(p: T -> bool, p': T -> bool, s: seq<T>)
    requires forall x :: x in s ==> (p(x) <==> p'(x))
    ensures Filter(p, s) == Filter(p', s)
  {
    if s != [] {
      assert s[0] in s;
      FilterSame(p, p', s[1..]);
    }
  }

  /** What a filter keeps, counted by position. */
  lemma {:induction false} FilterCounts<T(!new)>(p: T -> bool, s: seq<T>) returns (hits: set<int>)
    ensures |hits| == |Filter(p, s)|
    ensures forall i :: i in hits <==> 0 <= i < |s| && p(s[i])
  {
    if s == [] {
      hits := {};
    } else {
      var n := |s| - 1;
      FilterConcat(p, s[..n], [s[n]]);
      assert s[..n] + [s[n]] == s && [s[n]][1..] == [];
      hits := FilterCounts(p, s[..n]);
      assert n !in hits;
      hits := hits + if p(s[n]) then {n} else {};
    }
  }

  /** Binary lexicographic order, a proper prefix first. */
  predicate Lex(a: string, b: string)
  {
    b != [] && (a == [] || a[0] < b[0] || (a[0] == b[0] && Lex(a[1..], b[1..])))
  }

  lemma {:induction false} LexIrreflexive(a: string)
    ensures !Lex(a, a)
  {
    if a != [] {
      LexIrreflexive(a[1..]);
    }
  }

  lemma {:induction false} LexTransitive(a: string, b: string, c: string)
    requires Lex(a, b) && Lex(b, c)
    ensures Lex(a, c)
  {
    if a != [] && a[0] == b[0] && b[0] == c[0] {
      LexTransitive(a[1..], b[1..], c[1..]);
    }
  }

  lemma {:induction false} LexTotal(a: string, b: string)
    ensures a == b || Lex(a, b) || Lex(b, a)
  {
    if a != [] && b != [] && a[0] == b[0] {
      LexTotal(a[1..], b[1..]);
      assert a == [a[0]] + a[1..] && b == [b[0]] + b[1..];
    }
  }
}

/** Trimming of text input. */
module Strings {

  /** Unicode white space. */
  predicate IsSpace(c: char)
  {
    || '\t' <= c <= '\r' || c == ' ' || c == '\U{85}' || c == '\U{A0}' || c == '\U{1680}'
    || '\U{2000}' <= c <= '\U{200A}' || c == '\U{2028}' || c == '\U{2029}' || c == '\U{202F}' || c == '\U{205F}' || c == '\U{3000}'
  }

  function TrimLeft(s: string): string
  {
    if s != "" && IsSpace(s[0]) then TrimLeft(s[1..]) else s
  }

  function TrimRight(s: string): string
  {
    if s != "" && IsSpace(s[|s| - 1]) then TrimRight(s[..|s| - 1]) else s
  }

  function Trim(s: string): string
  {
    TrimRight(TrimLeft(s))
  }

  lemma {:induction false} TrimRightEnds(s: string)
    ensures TrimRight(s) == "" || !IsSpace(TrimRight(s)[|TrimRight(s)| - 1])
    ensures s != "" && !IsSpace(s[0]) ==> TrimRight(s) != "" && TrimRight(s)[0] == s[0]
  {
    if s != "" && IsSpace(s[|s| - 1]) {
      TrimRightEnds(s[..|s| - 1]);
    }
  }

  lemma {:induction false} TrimLeftStarts(s: string)
    ensures TrimLeft(s) == "" || !IsSpace(TrimLeft(s)[0])
  {
    if s != "" && IsSpace(s[0]) {
      TrimLeftStarts(s[1..]);
    }
  }

  /** Trimming takes the white space off both ends and nothing else. */
  lemma TrimIs(s: string) returns (i: nat, j: nat)
    ensures i <= j <= |s| && Trim(s) == s[i..j]
    ensures forall k :: 0 <= k < i || j <= k < |s| ==> IsSpace(s[k])
    ensures i < j ==> !IsSpace(s[i]) && !IsSpace(s[j - 1])
  {
    hide IsSpace;
    i := TrimLeftIs(s);
    var n := TrimRightIs(TrimLeft(s));
    j := i + n;
    assert s[i..][..n] == s[i..j];
    forall k | j <= k < |s|
      ensures IsSpace(s[k])
    {
      assert s[i..][k - i] == s[k];
    }
    if i < j {
      assert s[i..][0] == s[i] && s[i..][n - 1] == s[j - 1];
    }
  }

  lemma {:induction false} TrimLeftIs(s: string) returns (i: nat)
    ensures i <= |s| && TrimLeft(s) == s[i..]
    ensures forall k :: 0 <= k < i ==> IsSpace(s[k])
    ensures i < |s| ==> !IsSpace(s[i])
  {
    hide IsSpace;
    if s != "" && IsSpace(s[0]) {
      i := TrimLeftIs(s[1..]);
      i := i + 1;
    } else {
      i := 0;
    }
  }

  lemma {:induction false} TrimRightIs(s: string) returns (n: nat)
    ensures n <= |s| && TrimRight(s) == s[..n]
    ensures forall k :: n <= k < |s| ==> IsSpace(s[k])
    ensures 0 < n ==> !IsSpace(s[n - 1])
  {
    hide IsSpace;
    if s != "" && IsSpace(s[|s| - 1]) {
      n := TrimRightIs(s[..|s| - 1]);
    } else {
      n := |s|;
    }
  }

  lemma TrimIdempotent(s: string)
    ensures Trim(Trim(s)) == Trim(s)
  {
    TrimLeftStarts(s);
    TrimRightEnds(TrimLeft(s));
  }
}
