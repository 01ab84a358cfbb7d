/** Readers and writers of the task-list cache as interleaved atomic steps. */
module CacheProtocol {
  import opened Domain
  import opened Sequences
  import opened TaskQuery
  import opened TaskCache

  /** Page TTL, counter TTL, and the longest time from reading a stamp to storing under it. */
  datatype Config = Config(pageTtl: nat, genTtl: nat, maxDelay: nat)

  /** A table state: who committed it and when. Entry 0 of the log is the initial table. */
  datatype Commit = Commit(team: Id, rows: seq<Task>, at: int)

  /** The generation a reader saw, in which lifetime of the counter, and when. */
  datatype Stamp = Stamp(gen: nat, epoch: nat, at: int)

  /** Which table states a page came from, and when they were read. */
  datatype Reads = Reads(listIdx: nat, listAt: int, countIdx: nat, countAt: int)

  datatype Traced = Traced(page: Page, src: Reads, stamp: Stamp, setAt: int)

  datatype Process =
    | Asking(q: Query)
    | Stamped(q: Query, seen: Stamp)
    | Missed(q: Query, stamp: Option<Stamp>)
    | Listed(q: Query, stamp: Option<Stamp>, fetched: seq<Task>, listIdx: nat, listAt: int)
    | Counted(q: Query, stamp: Option<Stamp>, page: Page, src: Reads)
    | Answered(q: Query, page: Page, src: Reads, hit: bool, answeredAt: int)
    | Writing(team: Id)
    | Committed(team: Id, idx: nat)
    | Bumped(team: Id, idx: nat)
    | Unbumped(team: Id, idx: nat)
  {
    /** A writer whose commit no successful bump has covered. */
    predicate Owes(t: Id, i: nat)
    {
      (Committed? && team == t && idx == i) || (Unbumped? && team == t && idx == i)
    }
  }

  /** A team's counter lifetimes: how many ended, the last commit before each generation of the
      current one began, and the last generation and last live moment of the one before. */
  datatype Lifetime = Lifetime(number: nat, floors: seq<nat>, lastGen: nat, endedAt: int)

  datatype State = State(
    now: int,
    log: seq<Commit>,
    redis: Redis<Traced>,
    lifetimes: map<Id, Lifetime>,
    procs: map<nat, Process>)

  datatype Step =
    | Ask(pid: nat, q: Query)
    | ReadGeneration(pid: nat, answers: bool)
    | ReadPage(pid: nat, answers: bool, decodes: bool)
    | RunList(pid: nat)
    | RunCount(pid: nat)
    | SetPage(pid: nat, answers: bool)
    | BeginWrite(pid: nat, team: Id)
    | CommitWrite(pid: nat, rows: seq<Task>)
    | Invalidate(pid: nat, answers: bool)
    | Tick(elapsed: nat)

  function Initial(rows: seq<Task>): State
  {
    State(0, [Commit("", rows, 0)], Redis(map[], map[]), map[], map[])
  }

  function LifetimeOf(s: State, t: Id): Lifetime
  {
    if t in s.lifetimes then s.lifetimes[t] else Lifetime(0, [0], 0, 0)
  }

  function Table(s: State): seq<Task>
    requires s.log != []
  {
    s.log[|s.log| - 1].rows
  }

  function TeamRows(rows: seq<Task>, team: Id): seq<Task>
  {
    Filter((t: Task) => t.team == team, rows)
  }

  /** What passes the checks before the cache is consulted. */
  predicate QueryOk(q: Query)
  {
    IsNormalized(q) && StartAfter(q).Ok?
  }

  function Fetched(rows: seq<Task>, q: Query, clock: int): seq<Task>
    requires QueryOk(q)
  {
    Fetch(rows, q, clock, StartAfter(q).value)
  }

  ghost predicate Enabled(cfg: Config, s: State, step: Step)
  {
    s.log != [] &&
    match step
    case Ask(pid, q) => pid !in s.procs && QueryOk(q)
    case ReadGeneration(pid, _) => pid in s.procs && s.procs[pid].Asking?
    case ReadPage(pid, _, _) => pid in s.procs && s.procs[pid].Stamped?
    case RunList(pid) => pid in s.procs && s.procs[pid].Missed? && QueryOk(s.procs[pid].q)
    case RunCount(pid) => pid in s.procs && s.procs[pid].Listed? && QueryOk(s.procs[pid].q)
    case SetPage(pid, answers) =>
      && pid in s.procs && s.procs[pid].Counted?
      && (answers && s.procs[pid].stamp.Some? ==> s.now <= s.procs[pid].stamp.value.at + cfg.maxDelay)
    case BeginWrite(pid, _) => pid !in s.procs
    case CommitWrite(pid, rows) =>
      && pid in s.procs && s.procs[pid].Writing?
      && forall t :: t != s.procs[pid].team ==> TeamRows(rows, t) == TeamRows(Table(s), t)
    case Invalidate(pid, _) => pid in s.procs && s.procs[pid].Committed?
    case Tick(_) => true
  }

  function Put(s: State, pid: nat, p: Process): State
  {
    s.(procs := s.procs[pid := p])
  }

  function Last(floors: seq<nat>): nat
  {
    if floors == [] then 0 else floors[|floors| - 1]
  }

  /** The lifetimes of counters that are no longer live at `now` end; every commit so far
      precedes the stamps of the next. */
  function EndLifetimes(s: State, now: int): map<Id, Lifetime>
    requires s.log != []
  {
    s.lifetimes + map t | t in s.redis.gens && s.redis.gens[t].expires < now ::
      Lifetime(LifetimeOf(s, t).number + 1, [|s.log| - 1], s.redis.gens[t].value, s.redis.gens[t].expires)
  }

  ghost function Apply(cfg: Config, s: State, step: Step): State
    requires Enabled(cfg, s, step)
  {
    match step
    case Ask(pid, q) => Put(s, pid, Asking(q))
    case ReadGeneration(pid, answers) =>
      var q := s.procs[pid].q;
      if answers then Put(s, pid, Stamped(q, Stamp(Generation(s.redis, q.team), LifetimeOf(s, q.team).number, s.now)))
      else Put(s, pid, Missed(q, None))
    case ReadPage(pid, answers, decodes) =>
      var Stamped(q, seen) := s.procs[pid];
      var found := Lookup(s.redis, q, seen.gen);
      if !answers then Put(s, pid, Missed(q, None))
      else if found.None? || !decodes then Put(s, pid, Missed(q, Some(seen)))
      else Put(s, pid, Answered(q, found.value.page, found.value.src, true, s.now))
    case RunList(pid) =>
      var Missed(q, stamp) := s.procs[pid];
      Put(s, pid, Listed(q, stamp, Fetched(Table(s), q, s.now), |s.log| - 1, s.now))
    case RunCount(pid) =>
      var Listed(q, stamp, fetched, listIdx, listAt) := s.procs[pid];
      Put(s, pid, Counted(q, stamp, Assemble(q, fetched, Count(Table(s), q, s.now)), Reads(listIdx, listAt, |s.log| - 1, s.now)))
    case SetPage(pid, answers) =>
      var Counted(q, stamp, page, src) := s.procs[pid];
      var done := Put(s, pid, Answered(q, page, src, false, s.now));
      if answers && stamp.Some? then
        done.(redis := Store(s.redis, q, stamp.value.gen, Traced(page, src, stamp.value, s.now), s.now + cfg.pageTtl))
      else done
    case BeginWrite(pid, team) => Put(s, pid, Writing(team))
    case CommitWrite(pid, rows) =>
      var team := s.procs[pid].team;
      Put(s, pid, Committed(team, |s.log|)).(log := s.log + [Commit(team, rows, s.now)])
    case Invalidate(pid, answers) =>
      var Committed(team, idx) := s.procs[pid];
      if !answers then Put(s, pid, Unbumped(team, idx))
      else
        var l := LifetimeOf(s, team);
        Put(s, pid, Bumped(team, idx)).(
          redis := Bump(s.redis, team, s.now + cfg.genTtl),
          lifetimes := s.lifetimes[team := l.(floors := l.floors + [|s.log| - 1])])
    case Tick(elapsed) =>
      var now := s.now + elapsed;
      s.(now := now, redis := Purge(s.redis, now), lifetimes := EndLifetimes(s, now))
  }

  /** `steps` can be taken one after the other from `s`. */
  ghost predicate Feasible(cfg: Config, s: State, steps: seq<Step>)
    decreases |steps|
  {
    steps == [] || (Enabled(cfg, s, steps[0]) && Feasible(cfg, Apply(cfg, s, steps[0]), steps[1..]))
  }

  ghost function Execute(cfg: Config, s: State, steps: seq<Step>): State
    requires Feasible(cfg, s, steps)
    decreases |steps|
  {
    if steps == [] then s else Execute(cfg, Apply(cfg, s, steps[0]), steps[1..])
  }

  // ----- the invariant -----

  predicate ReadOk(s: State, idx: nat, at: int)
  {
    && idx < |s.log| && at <= s.now
    && s.log[idx].at <= at && (idx + 1 < |s.log| ==> at <= s.log[idx + 1].at)
  }

  /** The page is the query evaluated on the two table states read, each in force when it was read. */
  predicate PageFrom(s: State, q: Query, page: Page, r: Reads)
  {
    && QueryOk(q) && ReadOk(s, r.listIdx, r.listAt) && ReadOk(s, r.countIdx, r.countAt) && r.listAt <= r.countAt
    && page == Assemble(q, Fetched(s.log[r.listIdx].rows, q, r.listAt), Count(s.log[r.countIdx].rows, q, r.countAt))
  }

  predicate TeamOk(cfg: Config, s: State, t: Id)
  {
    var l, g := LifetimeOf(s, t), Generation(s.redis, t);
    && |l.floors| == g + 1 && Last(l.floors) < |s.log|
    && (forall a, b :: 0 <= a <= b <= g ==> l.floors[a] <= l.floors[b])
    && (l.number > 0 ==> l.endedAt < s.now && 0 < l.lastGen)
    && (t in s.redis.gens ==>
          && 1 <= s.redis.gens[t].value && s.now <= s.redis.gens[t].expires <= s.now + cfg.genTtl
          && (l.number > 0 ==> l.endedAt + cfg.genTtl <= s.redis.gens[t].expires))
  }

  predicate StampOk(cfg: Config, s: State, t: Id, st: Stamp)
  {
    var l := LifetimeOf(s, t);
    && st.epoch <= l.number && st.at <= s.now
    && (st.epoch == l.number ==>
          && st.gen <= Generation(s.redis, t)
          && (st.gen < Generation(s.redis, t) ==> t in s.redis.gens && st.at + cfg.genTtl <= s.redis.gens[t].expires))
    && (st.epoch < l.number ==>
          || st.at + cfg.genTtl <= l.endedAt
          || (st.epoch + 1 == l.number && st.gen == l.lastGen && st.at <= l.endedAt))
  }

  /** Data read under a stamp of the current lifetime is at least as new as that generation covers. */
  predicate Fresh(s: State, t: Id, st: Stamp, idx: nat)
  {
    var l := LifetimeOf(s, t);
    st.epoch == l.number ==> st.gen < |l.floors| && l.floors[st.gen] <= idx
  }

  predicate ProcessOk(cfg: Config, s: State, p: Process)
  {
    match p
    case Asking(q) => QueryOk(q)
    case Stamped(q, st) => QueryOk(q) && StampOk(cfg, s, q.team, st)
    case Missed(q, st) => QueryOk(q) && (st.Some? ==> StampOk(cfg, s, q.team, st.value))
    case Listed(q, st, fetched, idx, at) =>
      && QueryOk(q) && ReadOk(s, idx, at) && fetched == Fetched(s.log[idx].rows, q, at)
      && (st.Some? ==> StampOk(cfg, s, q.team, st.value) && Fresh(s, q.team, st.value, idx) && st.value.at <= at)
    case Counted(q, st, page, r) =>
      && PageFrom(s, q, page, r)
      && (st.Some? ==>
            && StampOk(cfg, s, q.team, st.value) && st.value.at <= r.listAt
            && Fresh(s, q.team, st.value, r.listIdx) && Fresh(s, q.team, st.value, r.countIdx))
    case Answered(q, page, r, hit, at) =>
      && PageFrom(s, q, page, r) && r.countAt <= at <= s.now
      && (hit ==> at <= r.listAt + cfg.pageTtl + cfg.maxDelay)
    case Writing(_) => true
    case Committed(t, i) => 0 < i < |s.log| && s.log[i].team == t
    case Unbumped(t, i) => 0 < i < |s.log| && s.log[i].team == t
    case Bumped(t, i) => 0 < i <= Last(LifetimeOf(s, t).floors)
  }

  predicate EntryOk(cfg: Config, s: State, k: PageKey, e: Entry<Traced>)
  {
    var t, v := k.query.team, e.value;
    && PageFrom(s, k.query, v.page, v.src) && v.stamp.gen == k.gen && StampOk(cfg, s, t, v.stamp)
    && Fresh(s, t, v.stamp, v.src.listIdx) && Fresh(s, t, v.stamp, v.src.countIdx)
    && v.stamp.at <= v.src.listAt && v.src.countAt <= v.setAt <= s.now && v.setAt <= v.stamp.at + cfg.maxDelay
    && e.expires == v.setAt + cfg.pageTtl && s.now <= e.expires
  }

  /** Each commit changed the rows of one team only, and commits are in time order. */
  ghost predicate LogOk(s: State)
  {
    && s.log != [] && s.log[|s.log| - 1].at <= s.now
    && forall i, t :: 0 < i < |s.log| && t != s.log[i].team ==> TeamRows(s.log[i].rows, t) == TeamRows(s.log[i - 1].rows, t)
  }

  /** Some writer still owes a bump for commit `i` of team `t`. */
  predicate Pending(s: State, t: Id, i: nat)
  {
    exists pid :: pid in s.procs && s.procs[pid].Owes(t, i)
  }

  /** Every commit is covered by the team's generation or still owed a bump. */
  predicate Covered(s: State)
  {
    forall i :: 0 < i < |s.log| ==> i <= Last(LifetimeOf(s, s.log[i].team).floors) || Pending(s, s.log[i].team, i)
  }

  ghost predicate Inv(cfg: Config, s: State)
  {
    && LogOk(s) && Covered(s)
    && (forall t :: TeamOk(cfg, s, t))
    && (forall pid :: pid in s.procs ==> ProcessOk(cfg, s, s.procs[pid]))
    && (forall k :: k in s.redis.pages ==> EntryOk(cfg, s, k, s.redis.pages[k]))
  }
}
