/** The team statistics query and the loop that scans its rows. */
module Stats {
  import opened Domain
  import opened Sequences
  import opened TaskQuery

  const THIRTY_DAYS := 30 * 24 * 3600

  datatype Performer = Performer(user: Id, name: string, closes: nat)

  /** The tables read: tasks, the task of each comment, and users' names. */
  datatype Tables = Tables(tasks: seq<Task>, comments: seq<Id>, users: map<Id, string>)

  datatype TeamStats = TeamStats(
    byStatus: map<Status, nat>,
    top: seq<Performer>,
    avgHours: real,
    comments: nat,
    total: nat,
    overdue: nat)

  // ----- the query -----

  function TeamTasks(db: Tables, team: Id): seq<Task>
  {
    Filter((t: Task) => t.team == team, db.tasks)
  }

  function WithStatus(tasks: seq<Task>, s: Status): nat
  {
    |Filter((t: Task) => t.status == s, tasks)|
  }

  function Overdue(tasks: seq<Task>, now: int): nat
  {
    |Filter((t: Task) => t.IsOverdue(now), tasks)|
  }

  predicate Timed(t: Task)
  {
    t.status == Done && t.closedAt.Some?
  }

  function SecondsOpen(tasks: seq<Task>): int
  {
    if tasks == [] then 0
    else (if Timed(tasks[0]) then tasks[0].closedAt.value - tasks[0].createdAt else 0) + SecondsOpen(tasks[1..])
  }

  /** AVG over no rows is NULL. */
  function AverageHours(tasks: seq<Task>): Option<real>
  {
    var n := |Filter(Timed, tasks)|;
    if n == 0 then None else Some(SecondsOpen(tasks) as real / n as real / 3600.0)
  }

  /** Comments joined to the team's tasks. */
  function CommentCount(db: Tables, team: Id): nat
  {
    var ids := set t <- TeamTasks(db, team) :: t.id;
    |Filter(c => c in ids, db.comments)|
  }

  /** A task closed within the last 30 days by a known user. */
  predicate Counted(db: Tables, now: int, t: Task)
  {
    t.status == Done && t.closedAt.Some? && t.closedAt.value >= now - THIRTY_DAYS && t.assignee.Some? && t.assignee.value in db.users
  }

  function CountedTasks(db: Tables, team: Id, now: int): seq<Task>
  {
    Filter(t => Counted(db, now, t), TeamTasks(db, team))
  }

  /** One more task in its user's group, or a new group. */
  function Tally(groups: seq<Performer>, user: Id, name: string): seq<Performer>
  {
    if groups == [] then [Performer(user, name, 1)]
    else if groups[0].user == user then [groups[0].(closes := groups[0].closes + 1)] + groups[1..]
    else [groups[0]] + Tally(groups[1..], user, name)
  }

  /** GROUP BY user. */
  function Groups(users: map<Id, string>, tasks: seq<Task>): seq<Performer>
    requires forall t :: t in tasks ==> t.assignee.Some? && t.assignee.value in users
  {
    if tasks == [] then []
    else
      var user := tasks[0].assignee.value;
      assert tasks[0] in tasks;
      Tally(Groups(users, tasks[1..]), user, users[user])
  }

  function Folded(name: string): string
  {
    seq(|name|, i requires 0 <= i < |name| => Fold(name[i]))
  }

  /** ORDER BY closed_tasks DESC, name, id, with names compared by the column's collation. */
  predicate Ahead(a: Performer, b: Performer)
  {
    || a.closes > b.closes
    || (a.closes == b.closes && (Lex(Folded(a.name), Folded(b.name)) || (Folded(a.name) == Folded(b.name) && Lex(a.user, b.user))))
  }

  function Place(p: Performer, s: seq<Performer>): (r: seq<Performer>)
    ensures |r| == |s| + 1
    ensures forall x :: x in r <==> x == p || x in s
  {
    if s == [] || Ahead(p, s[0]) then [p] + s else [s[0]] + Place(p, s[1..])
  }

  function Ranking(groups: seq<Performer>): (r: seq<Performer>)
    ensures |r| == |groups|
    ensures forall x :: x in r <==> x in groups
  {
    if groups == [] then [] else Place(groups[0], Ranking(groups[1..]))
  }

  function TopPerformers(db: Tables, team: Id, now: int): seq<Performer>
  {
    var all := Ranking(Groups(db.users, CountedTasks(db, team, now)));
    if |all| <= 3 then all else all[..3]
  }

  /** A result row: the aggregates, and one performer or NULLs. */
  datatype Row = Row(
    total: nat, todo: nat, inProgress: nat, review: nat, done: nat, cancelled: nat, overdue: nat,
    avgHours: Option<real>, comments: nat, performer: Option<Performer>)

  function Aggregates(db: Tables, team: Id, now: int, p: Option<Performer>): Row
  {
    var ts := TeamTasks(db, team);
    Row(|ts|, WithStatus(ts, Todo), WithStatus(ts, InProgress), WithStatus(ts, Review), WithStatus(ts, Done), WithStatus(ts, Cancelled),
        Overdue(ts, now), AverageHours(ts), CommentCount(db, team), p)
  }

  /** LEFT JOIN on top_performers: at least one row. */
  function QueryRows(db: Tables, team: Id, now: int): (rows: seq<Row>)
  {
    var top := TopPerformers(db, team, now);
    if top == [] then [Aggregates(db, team, now, None)]
    else seq(|top|, i requires 0 <= i < |top| => Aggregates(db, team, now, Some(top[i])))
  }

  /** What the report should say. */
  function Report(db: Tables, team: Id, now: int): TeamStats
  {
    var ts := TeamTasks(db, team);
    TeamStats(map s: Status | s in {Todo, InProgress, Review, Done, Cancelled} :: WithStatus(ts, s),
              TopPerformers(db, team, now),
              if AverageHours(ts).Some? then AverageHours(ts).value else 0.0,
              CommentCount(db, team), |ts|, Overdue(ts, now))
  }

  /** Every row sets the aggregates; a row with a performer also adds to the list. */
  method GetStats(db: Tables, team: Id, now: int) returns (stats: TeamStats)
    ensures stats == Report(db, team, now)
  {
    hide TopPerformers, TeamTasks, WithStatus, Overdue, AverageHours, CommentCount;
    var rows := QueryRows(db, team, now);
    ghost var top := TopPerformers(db, team, now);
    stats := TeamStats(map[], [], 0.0, 0, 0, 0);
    var i := 0;
    while i < |rows|
      invariant 0 <= i <= |rows|
      invariant stats.top == if top == [] then [] else top[..i]
      invariant i == 0 ==> stats.byStatus == map[]
      invariant i > 0 ==> stats == Report(db, team, now).(top := stats.top)
    {
      var row := rows[i];
      stats := stats.(total := row.total, overdue := row.overdue, comments := row.comments);
      stats := stats.(byStatus := stats.byStatus[Todo := row.todo][InProgress := row.inProgress][Review := row.review][Done := row.done][Cancelled := row.cancelled]);
      stats := stats.(avgHours := if row.avgHours.Some? then row.avgHours.value else 0.0);
      if row.performer.Some? {
        stats := stats.(top := stats.top + [row.performer.value]);
      }
      assert stats.byStatus == Report(db, team, now).byStatus;
      i := i + 1;
    }
  }

  // ----- the counts -----

  lemma {:induction false} StatusesAddUp(tasks: seq<Task>)
    ensures WithStatus(tasks, Todo) + WithStatus(tasks, InProgress) + WithStatus(tasks, Review) + WithStatus(tasks, Done) + WithStatus(tasks, Cancelled) == |tasks|
  {
    if tasks != [] {
      StatusesAddUp(tasks[1..]);
    }
  }

  lemma {:induction false} OverdueAreOpen(tasks: seq<Task>, now: int)
    ensures Overdue(tasks, now) <= WithStatus(tasks, Todo) + WithStatus(tasks, InProgress) + WithStatus(tasks, Review)
  {
    if tasks != [] {
      OverdueAreOpen(tasks[1..], now);
    }
  }

  /** The report's five counts partition its tasks and its overdue tasks are open ones. */
  lemma CountsAgree(db: Tables, team: Id, now: int)
    ensures var r := Report(db, team, now);
      var n := r.byStatus;
      && n.Keys == {Todo, InProgress, Review, Done, Cancelled}
      && n[Todo] + n[InProgress] + n[Review] + n[Done] + n[Cancelled] == r.total
      && r.overdue <= n[Todo] + n[InProgress] + n[Review]
  {
    StatusesAddUp(TeamTasks(db, team));
    OverdueAreOpen(TeamTasks(db, team), now);
  }

  // ----- the ranking -----

  predicate Ordered(s: seq<Performer>)
  {
    forall i, j :: 0 <= i < j < |s| ==> Ahead(s[i], s[j])
  }

  predicate DistinctUsers(s: seq<Performer>)
  {
    forall i, j :: 0 <= i < j < |s| ==> s[i].user != s[j].user
  }

  function Sum(s: seq<Performer>): nat
  {
    if s == [] then 0 else s[0].closes + Sum(s[1..])
  }

  lemma AheadTransitive(a: Performer, b: Performer, c: Performer)
    requires Ahead(a, b) && Ahead(b, c)
    ensures Ahead(a, c)
  {
    if a.closes == c.closes {
      if Lex(Folded(a.name), Folded(b.name)) && Lex(Folded(b.name), Folded(c.name)) {
        LexTransitive(Folded(a.name), Folded(b.name), Folded(c.name));
      } else if Lex(a.user, b.user) && Lex(b.user, c.user) {
        LexTransitive(a.user, b.user, c.user);
      }
    }
  }

  lemma AheadTotal(a: Performer, b: Performer)
    requires a.user != b.user
    ensures Ahead(a, b) || Ahead(b, a)
  {
    LexTotal(Folded(a.name), Folded(b.name));
    LexTotal(a.user, b.user);
  }

  lemma {:induction false} PlaceOrders(p: Performer, s: seq<Performer>)
    requires Ordered(s) && forall x :: x in s ==> x.user != p.user
    ensures Ordered(Place(p, s)) && Sum(Place(p, s)) == p.closes + Sum(s)
  {
    hide Ahead;
    var r := Place(p, s);
    if s == [] {
    } else if Ahead(p, s[0]) {
      assert r[1..] == s;
      forall x | x in s
        ensures Ahead(p, x)
      {
        var i :| 0 <= i < |s| && s[i] == x;
        if i > 0 {
          AheadTransitive(p, s[0], s[i]);
        }
      }
    } else {
      assert s[0] in s;
      AheadTotal(p, s[0]);
      PlaceOrders(p, s[1..]);
      assert r[1..] == Place(p, s[1..]);
      forall x | x in r[1..]
        ensures Ahead(s[0], x)
      {
        if x != p {
          var i :| 0 <= i < |s[1..]| && s[1..][i] == x;
          assert s[i + 1] == x;
        }
      }
    }
  }

  lemma {:induction false} RankingOrders(g: seq<Performer>)
    requires DistinctUsers(g)
    ensures Ordered(Ranking(g)) && Sum(Ranking(g)) == Sum(g)
  {
    if g != [] {
      RankingOrders(g[1..]);
      PlaceOrders(g[0], Ranking(g[1..]));
    }
  }

  // ----- the groups -----

  /** How many of the tasks the user closed. */
  function Closes(tasks: seq<Task>, user: Id): nat
  {
    |Filter((t: Task) => t.assignee == Some(user), tasks)|
  }

  /** The count the groups hold for a user. */
  function Held(g: seq<Performer>, user: Id): nat
  {
    if g == [] then 0 else if g[0].user == user then g[0].closes else Held(g[1..], user)
  }

  lemma {:induction false} TallyHolds(g: seq<Performer>, user: Id, name: string, other: Id)
    ensures Sum(Tally(g, user, name)) == Sum(g) + 1
    ensures Held(Tally(g, user, name), other) == Held(g, other) + if other == user then 1 else 0
  {
    if g != [] {
      var r := Tally(g, user, name);
      if g[0].user == user {
        assert r[1..] == g[1..];
      } else {
        TallyHolds(g[1..], user, name, other);
        assert r[1..] == Tally(g[1..], user, name);
      }
    }
  }

  /** One group to a user, never empty, under the user's name. */
  predicate WellFormed(users: map<Id, string>, g: seq<Performer>)
  {
    DistinctUsers(g) && forall p :: p in g ==> p.closes >= 1 && p.user in users && p.name == users[p.user]
  }

  lemma {:induction false} TallyWellFormed(users: map<Id, string>, g: seq<Performer>, user: Id)
    requires user in users && WellFormed(users, g)
    ensures WellFormed(users, Tally(g, user, users[user]))
    ensures forall p :: p in Tally(g, user, users[user]) ==> p.user == user || p in g
  {
    var r := Tally(g, user, users[user]);
    if g != [] {
      assert g[0] in g;
      if g[0].user == user {
        assert r[1..] == g[1..];
      } else {
        TallyWellFormed(users, g[1..], user);
        assert r[1..] == Tally(g[1..], user, users[user]);
      }
    }
  }

  lemma {:induction false} HeldIsMember(users: map<Id, string>, g: seq<Performer>, p: Performer)
    requires WellFormed(users, g)
    ensures p in g <==> p.user in users && p == Performer(p.user, users[p.user], Held(g, p.user)) && p.closes >= 1
  {
    if g != [] {
      assert g[0] in g;
      HeldIsMember(users, g[1..], p);
      if g[0].user == p.user {
        assert p !in g[1..];
      }
    }
  }

  /** The group a user should have. */
  predicate IsGroup(users: map<Id, string>, tasks: seq<Task>, p: Performer)
  {
    p.user in users && Closes(tasks, p.user) >= 1 && p == Performer(p.user, users[p.user], Closes(tasks, p.user))
  }

  lemma {:induction false} GroupsHold(users: map<Id, string>, tasks: seq<Task>, user: Id)
    requires forall t :: t in tasks ==> t.assignee.Some? && t.assignee.value in users
    ensures var g := Groups(users, tasks); WellFormed(users, g) && Sum(g) == |tasks| && Held(g, user) == Closes(tasks, user)
  {
    if tasks != [] {
      hide WellFormed, Tally, Held, Sum;
      assert tasks[0] in tasks;
      var closer, g := tasks[0].assignee.value, Groups(users, tasks[1..]);
      GroupsHold(users, tasks[1..], user);
      TallyHolds(g, closer, users[closer], user);
      TallyWellFormed(users, g, closer);
    }
  }

  /** There is one group for each user who closed a task, holding how many, and no other. */
  lemma GroupsCount(users: map<Id, string>, tasks: seq<Task>)
    requires forall t :: t in tasks ==> t.assignee.Some? && t.assignee.value in users
    ensures var g := Groups(users, tasks);
      DistinctUsers(g) && Sum(g) == |tasks| && forall p :: p in g <==> IsGroup(users, tasks, p)
  {
    hide Groups, Closes, Sum, Held;
    var g := Groups(users, tasks);
    GroupsHold(users, tasks, "");
    forall p
      ensures p in g <==> IsGroup(users, tasks, p)
    {
      GroupsHold(users, tasks, p.user);
      HeldIsMember(users, g, p);
    }
  }

  /** Who the report lists: at most three, each with the tasks they closed, and no one left out ranks ahead. */
  lemma TopPerformersRankFirst(db: Tables, team: Id, now: int, user: Id)
    ensures var top := Report(db, team, now).top;
      var tasks := CountedTasks(db, team, now);
      && |top| <= 3 && Ordered(top) && DistinctUsers(top)
      && (forall p :: p in top ==> IsGroup(db.users, tasks, p))
      && (user in db.users && Closes(tasks, user) >= 1 ==>
            var p := Performer(user, db.users[user], Closes(tasks, user));
            p in top || (|top| == 3 && forall q :: q in top ==> Ahead(q, p)))
  {
    hide Ahead, TeamTasks, WithStatus, Overdue, AverageHours, CommentCount, Closes, Tally, Place;
    var tasks := CountedTasks(db, team, now);
    var g := Groups(db.users, tasks);
    GroupsCount(db.users, tasks);
    RankingOrders(g);
    var all := Ranking(g);
    var top := TopPerformers(db, team, now);
    assert forall i :: 0 <= i < |top| ==> top[i] == all[i] && top[i] in g;
    RankedOnce(db.users, tasks, top);
    if user in db.users && Closes(tasks, user) >= 1 {
      var p := Performer(user, db.users[user], Closes(tasks, user));
      assert IsGroup(db.users, tasks, p);
      assert p in all;
      var i :| 0 <= i < |all| && all[i] == p;
      assert i < |top| ==> top[i] == p;
    }
  }

  /** An ordered list of groups repeats no one. */
  lemma RankedOnce(users: map<Id, string>, tasks: seq<Task>, s: seq<Performer>)
    requires Ordered(s) && forall p :: p in s ==> IsGroup(users, tasks, p)
    ensures DistinctUsers(s)
  {
    hide Closes;
    forall i, j | 0 <= i < j < |s|
      ensures s[i].user != s[j].user
    {
      LexIrreflexive(Folded(s[i].name));
      LexIrreflexive(s[i].user);
      assert IsGroup(users, tasks, s[i]) && IsGroup(users, tasks, s[j]);
    }
  }

  lemma {:induction false} SumOfPrefix(s: seq<Performer>, n: nat)
    requires n <= |s|
    ensures Sum(s[..n]) <= Sum(s)
  {
    if n > 0 {
      SumOfPrefix(s[1..], n - 1);
      assert s[..n][1..] == s[1..][..n - 1];
    }
  }

  lemma {:induction false} CountedAreDone(db: Tables, tasks: seq<Task>, now: int)
    ensures |Filter(t => Counted(db, now, t), tasks)| <= WithStatus(tasks, Done)
  {
    if tasks != [] {
      CountedAreDone(db, tasks[1..], now);
    }
  }

  /** The listed closes are closes of the team: together at most its done tasks. */
  lemma ListedClosesAreDone(db: Tables, team: Id, now: int)
    ensures var r := Report(db, team, now); Done in r.byStatus && Sum(r.top) <= r.byStatus[Done]
  {
    hide Groups, Ranking, Sum, TeamTasks, Overdue, AverageHours, CommentCount, WithStatus;
    var tasks := CountedTasks(db, team, now);
    var g := Groups(db.users, tasks);
    GroupsCount(db.users, tasks);
    RankingOrders(g);
    var all := Ranking(g);
    SumOfPrefix(all, if |all| <= 3 then |all| else 3);
    assert all[..|all|] == all;
    CountedAreDone(db, TeamTasks(db, team), now);
  }

  // ----- the report, told on the tables -----

  /** Filtering the team's tasks is filtering the table for the team as well. */
  lemma TeamFilter(db: Tables, team: Id, p: Task -> bool, both: Task -> bool) returns (hits: set<int>)
    requires forall t :: both(t) <==> t.team == team && p(t)
    ensures |hits| == |Filter(p, TeamTasks(db, team))|
    ensures forall i :: i in hits <==> 0 <= i < |db.tasks| && both(db.tasks[i])
  {
    FilterFilter(p, (t: Task) => t.team == team, both, db.tasks);
    hits := FilterCounts(both, db.tasks);
  }

  /** Each status count is the number of the team's tasks with that status, and the total of them all. */
  lemma StatusCounted(db: Tables, team: Id, now: int, s: Status) returns (hits: set<int>, all: set<int>)
    ensures var r := Report(db, team, now); s in r.byStatus && r.byStatus[s] == |hits| && r.total == |all|
    ensures forall i :: i in hits <==> 0 <= i < |db.tasks| && db.tasks[i].team == team && db.tasks[i].status == s
    ensures forall i :: i in all <==> 0 <= i < |db.tasks| && db.tasks[i].team == team
  {
    hide TopPerformers, Overdue, AverageHours, CommentCount;
    hits := TeamFilter(db, team, (t: Task) => t.status == s, (t: Task) => t.team == team && t.status == s);
    all := FilterCounts((t: Task) => t.team == team, db.tasks);
  }

  /** The overdue count is the number of the team's tasks past their due date and neither done nor cancelled. */
  lemma OverdueCounted(db: Tables, team: Id, now: int) returns (hits: set<int>)
    ensures Report(db, team, now).overdue == |hits|
    ensures forall i :: i in hits <==>
      && 0 <= i < |db.tasks| && db.tasks[i].team == team
      && db.tasks[i].dueAt.Some? && db.tasks[i].dueAt.value < now && db.tasks[i].status != Done && db.tasks[i].status != Cancelled
  {
    hide TopPerformers, WithStatus, AverageHours, CommentCount;
    hits := TeamFilter(db, team, (t: Task) => t.IsOverdue(now), (t: Task) => t.team == team && t.IsOverdue(now));
  }

  /** The comment count is the number of comments on a task of the team. */
  lemma CommentsCounted(db: Tables, team: Id, now: int) returns (hits: set<int>)
    ensures Report(db, team, now).comments == |hits|
    ensures forall i :: i in hits <==>
      0 <= i < |db.comments| && exists j :: 0 <= j < |db.tasks| && db.tasks[j].id == db.comments[i] && db.tasks[j].team == team
  {
    hide TopPerformers, WithStatus, AverageHours, Overdue;
    var ids := set t <- TeamTasks(db, team) :: t.id;
    hits := FilterCounts(c => c in ids, db.comments);
    forall c
      ensures c in ids <==> exists j :: 0 <= j < |db.tasks| && db.tasks[j].id == c && db.tasks[j].team == team
    {
      if c in ids {
        var t :| t in TeamTasks(db, team) && t.id == c;
        assert t in db.tasks;
      }
      if j :| 0 <= j < |db.tasks| && db.tasks[j].id == c && db.tasks[j].team == team {
        assert db.tasks[j] in TeamTasks(db, team);
      }
    }
  }

  /** The tasks a user closed for the team within thirty days. */
  lemma ClosesCounted(db: Tables, team: Id, now: int, user: Id) returns (hits: set<int>)
    requires user in db.users
    ensures Closes(CountedTasks(db, team, now), user) == |hits|
    ensures forall i :: i in hits <==>
      && 0 <= i < |db.tasks| && db.tasks[i].team == team && db.tasks[i].status == Done && db.tasks[i].assignee == Some(user)
      && db.tasks[i].closedAt.Some? && db.tasks[i].closedAt.value >= now - 2592000
  {
    var both := (t: Task) => Counted(db, now, t) && t.assignee == Some(user);
    FilterFilter((t: Task) => t.assignee == Some(user), t => Counted(db, now, t), both, TeamTasks(db, team));
    hits := TeamFilter(db, team, both, (t: Task) => t.team == team && Counted(db, now, t) && t.assignee == Some(user));
  }

  /**
   * Who the report lists, for any user: `hits` are the team's tasks they closed within thirty days. They
   * are listed only with that count, above zero; and if they closed any and are not listed, three others
   * are, each ahead by closes, then name, then id. The list itself is in that order.
   */
  lemma ListedAreFirst(db: Tables, team: Id, now: int, user: Id) returns (hits: set<int>)
    requires user in db.users
    ensures forall i :: i in hits <==>
      && 0 <= i < |db.tasks| && db.tasks[i].team == team && db.tasks[i].status == Done && db.tasks[i].assignee == Some(user)
      && db.tasks[i].closedAt.Some? && db.tasks[i].closedAt.value >= now - 2592000
    ensures var top := Report(db, team, now).top;
      && (forall p :: p in top && p.user == user ==> p.closes == |hits| >= 1 && p.name == db.users[user])
      && (|hits| >= 1 && (forall p :: p in top ==> p.user != user) ==>
            |top| == 3 && forall p :: p in top ==>
              || p.closes > |hits|
              || (p.closes == |hits| && Lex(Folded(p.name), Folded(db.users[user])))
              || (p.closes == |hits| && Folded(p.name) == Folded(db.users[user]) && Lex(p.user, user)))
  {
    hide Report, Ahead, Closes, CountedTasks, Folded;
    hits := ClosesCounted(db, team, now, user);
    TopPerformersRankFirst(db, team, now, user);
    var top, me := Report(db, team, now).top, Performer(user, db.users[user], |hits|);
    forall p | p in top && Ahead(p, me)
      ensures AheadOn(p, me)
    {
      AheadIs(p, me);
    }
  }

  /** One performer ahead of another, on the fields. */
  predicate AheadOn(p: Performer, q: Performer)
  {
    || p.closes > q.closes
    || (p.closes == q.closes && Lex(Folded(p.name), Folded(q.name)))
    || (p.closes == q.closes && Folded(p.name) == Folded(q.name) && Lex(p.user, q.user))
  }

  lemma AheadIs(p: Performer, q: Performer)
    ensures Ahead(p, q) <==> AheadOn(p, q)
  {
  }

  /** The list is short, in order, and names known users once each. */
  lemma ListIsOrdered(db: Tables, team: Id, now: int, i: nat, j: nat)
    requires i < j < |Report(db, team, now).top|
    ensures var top := Report(db, team, now).top;
      var p, q := top[i], top[j];
      && |top| <= 3 && p.user != q.user && p.user in db.users && q.user in db.users
      && (|| p.closes > q.closes
          || (p.closes == q.closes && Lex(Folded(p.name), Folded(q.name)))
          || (p.closes == q.closes && Folded(p.name) == Folded(q.name) && Lex(p.user, q.user)))
  {
    hide Report, Ahead, Closes, CountedTasks, Folded;
    TopPerformersRankFirst(db, team, now, "");
    var top := Report(db, team, now).top;
    assert top[i] in top && top[j] in top && IsGroup(db.users, CountedTasks(db, team, now), top[i]) && IsGroup(db.users, CountedTasks(db, team, now), top[j]);
    AheadIs(top[i], top[j]);
  }

  /** What the team's done tasks took together, in seconds. */
  function TotalSeconds(tasks: seq<Task>, team: Id): int
  {
    if tasks == [] then 0
    else
      var t := tasks[0];
      (if t.team == team && t.status == Done && t.closedAt.Some? then t.closedAt.value - t.createdAt else 0) + TotalSeconds(tasks[1..], team)
  }

  lemma {:induction false} TeamSeconds(tasks: seq<Task>, team: Id)
    ensures SecondsOpen(Filter((t: Task) => t.team == team, tasks)) == TotalSeconds(tasks, team)
  {
    if tasks != [] {
      TeamSeconds(tasks[1..], team);
      var all, rest := Filter((t: Task) => t.team == team, tasks), Filter((t: Task) => t.team == team, tasks[1..]);
      if tasks[0].team == team {
        assert all == [tasks[0]] + rest && all[1..] == rest;
      } else {
        assert all == rest;
      }
    }
  }

  /** The average is that time over their number, in hours, and zero when there are none. */
  lemma AverageIs(db: Tables, team: Id, now: int) returns (hits: set<int>)
    ensures forall i :: i in hits <==>
      0 <= i < |db.tasks| && db.tasks[i].team == team && db.tasks[i].status == Done && db.tasks[i].closedAt.Some?
    ensures Report(db, team, now).avgHours ==
      if hits == {} then 0.0 else TotalSeconds(db.tasks, team) as real / |hits| as real / 3600.0
  {
    hide TopPerformers, WithStatus, CommentCount, Overdue;
    hits := TeamFilter(db, team, Timed, (t: Task) => t.team == team && Timed(t));
    TeamSeconds(db.tasks, team);
    assert hits == {} <==> |hits| == 0;
  }

  /** Every closing time lies within the bounds its team's times do, and so does their average. */
  lemma AverageLiesBetween(db: Tables, team: Id, now: int, low: int, high: int)
    requires forall t :: t in TeamTasks(db, team) && Timed(t) ==> low <= t.closedAt.value - t.createdAt <= high
    requires exists t :: t in TeamTasks(db, team) && Timed(t)
    ensures low as real <= Report(db, team, now).avgHours * 3600.0 <= high as real
  {
    hide TopPerformers, WithStatus, Overdue, CommentCount, TeamTasks;
    var tasks := TeamTasks(db, team);
    SecondsBetween(tasks, low, high);
    var n := |Filter(Timed, tasks)|;
    assert n > 0;
    var avg := SecondsOpen(tasks) as real / n as real;
    Divided(SecondsOpen(tasks), n, low, high);
    assert Report(db, team, now).avgHours == avg / 3600.0;
  }

  lemma Divided(sum: int, n: nat, low: int, high: int)
    requires n > 0 && n * low <= sum <= n * high
    ensures low as real <= sum as real / n as real <= high as real
  {
    assert (n * low) as real == n as real * low as real && (n * high) as real == n as real * high as real;
  }

  lemma {:induction false} SecondsBetween(tasks: seq<Task>, low: int, high: int)
    requires forall t :: t in tasks && Timed(t) ==> low <= t.closedAt.value - t.createdAt <= high
    ensures var n := |Filter(Timed, tasks)|; n * low <= SecondsOpen(tasks) <= n * high
  {
    if tasks != [] {
      assert tasks[0] in tasks;
      var n := |Filter(Timed, tasks[1..])|;
      SecondsBetween(tasks[1..], low, high);
      OneMore(n, low);
      OneMore(n, high);
    }
  }

  lemma OneMore(n: int, x: int)
    ensures (n + 1) * x == n * x + x
  {
  }
}
