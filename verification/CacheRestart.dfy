/** The counter-restart hazard: exactly when a restarted counter can serve a stale page. */
module CacheRestart {
  import opened Domain
  import opened TaskQuery
  import opened TaskCache
  import opened CacheProtocol
  import opened CacheSafety
  import opened CacheTheorems

  const TEAM: Id := "team"

  /** The plain first page of the team's tasks. */
  const FIRST_PAGE: Query := Query(TEAM, None, None, None, false, "", "", "", 20, 0, Absent)

  const NEW_TASK: Task := Task("task", TEAM, "title", "", Todo, Medium, None, "user", None, 0, 0, None, 1)

  lemma {:induction false} ReachableStep(cfg: Config, s: State, step: Step)
    requires Reachable(cfg, s) && Enabled(cfg, s, step)
    ensures Reachable(cfg, Apply(cfg, s, step))
  {
    hide Enabled, Apply;
    var rows, steps :| Feasible(cfg, Initial(rows), steps) && s == Execute(cfg, Initial(rows), steps);
    AppendStep(cfg, Initial(rows), steps, step);
  }

  lemma {:induction false} AppendStep(cfg: Config, s: State, steps: seq<Step>, step: Step)
    requires Feasible(cfg, s, steps) && Enabled(cfg, Execute(cfg, s, steps), step)
    ensures Feasible(cfg, s, steps + [step])
    ensures Execute(cfg, s, steps + [step]) == Apply(cfg, Execute(cfg, s, steps), step)
    decreases |steps|
  {
    hide Enabled, Apply;
    var all := steps + [step];
    if steps == [] {
      assert all[0] == step && all[1..] == [];
      assert Feasible(cfg, Apply(cfg, s, step), all[1..]);
      assert Execute(cfg, Apply(cfg, s, step), all[1..]) == Apply(cfg, s, step);
    } else {
      assert all[0] == steps[0] && all[1..] == steps[1..] + [step];
      AppendStep(cfg, Apply(cfg, s, steps[0]), steps[1..], step);
    }
  }

  /** Process ids from `next` on are unused, and nobody owes a bump for the team. */
  predicate Quiet(s: State, next: nat)
  {
    Settled(s, TEAM) && s.log != [] && forall pid :: pid in s.procs ==> pid < next
  }

  /** One whole write: commit `rows`, then bump. */
  lemma WriteOnce(cfg: Config, s: State, rows: seq<Task>, next: nat) returns (s': State)
    requires Reachable(cfg, s) && Quiet(s, next)
    requires forall t :: t != TEAM ==> TeamRows(rows, t) == TeamRows(Table(s), t)
    ensures Reachable(cfg, s') && Quiet(s', next + 1)
    ensures s'.now == s.now && Table(s') == rows && s'.redis == Bump(s.redis, TEAM, s.now + cfg.genTtl)
    ensures var l, l' := LifetimeOf(s, TEAM), LifetimeOf(s', TEAM); l'.number == l.number && l'.lastGen == l.lastGen && l'.endedAt == l.endedAt
  {
    hide TeamRows, Reachable;
    var s1 := Apply(cfg, s, BeginWrite(next, TEAM));
    ReachableStep(cfg, s, BeginWrite(next, TEAM));
    var s2 := Apply(cfg, s1, CommitWrite(next, rows));
    ReachableStep(cfg, s1, CommitWrite(next, rows));
    s' := Apply(cfg, s2, Invalidate(next, true));
    ReachableStep(cfg, s2, Invalidate(next, true));
  }

  /** `n` such writes raise the generation by `n`. */
  lemma {:induction false} WriteMany(cfg: Config, s: State, rows: seq<Task>, next: nat, n: nat) returns (s': State)
    requires Reachable(cfg, s) && Quiet(s, next) && 0 < n
    requires forall t :: t != TEAM ==> TeamRows(rows, t) == TeamRows(Table(s), t)
    ensures Reachable(cfg, s') && Quiet(s', next + n)
    ensures s'.now == s.now && Table(s') == rows && s'.redis.pages == s.redis.pages
    ensures TEAM in s'.redis.gens && s'.redis.gens[TEAM] == Counter(Generation(s.redis, TEAM) + n, s.now + cfg.genTtl)
    ensures var l, l' := LifetimeOf(s, TEAM), LifetimeOf(s', TEAM); l'.number == l.number && l'.lastGen == l.lastGen && l'.endedAt == l.endedAt
    decreases n
  {
    hide TeamRows, Reachable;
    s' := WriteOnce(cfg, s, rows, next);
    if n > 1 {
      s' := WriteMany(cfg, s', rows, next + 1, n - 1);
    }
  }

  lemma EvaluatedIs(rows: seq<Task>, clock: int)
    requires QueryOk(FIRST_PAGE)
    ensures Evaluate(rows, FIRST_PAGE, clock) == Ok(Assemble(FIRST_PAGE, Fetched(rows, FIRST_PAGE, clock), Count(rows, FIRST_PAGE, clock)))
  {
    hide Fetch, Count, Assemble, StartAfter;
  }

  /** The reader up to the point where it has its page. */
  lemma ReadTable(cfg: Config, s: State, next: nat) returns (s5: State)
    requires Reachable(cfg, s) && Quiet(s, next)
    requires QueryOk(FIRST_PAGE) && Lookup(s.redis, FIRST_PAGE, Generation(s.redis, TEAM)).None?
    ensures Reachable(cfg, s5) && next in s5.procs && s5 == s.(procs := s.procs[next := s5.procs[next]])
    ensures var stamp := Stamp(Generation(s.redis, TEAM), LifetimeOf(s, TEAM).number, s.now);
      var page := Assemble(FIRST_PAGE, Fetched(Table(s), FIRST_PAGE, s.now), Count(Table(s), FIRST_PAGE, s.now));
      s5.procs[next] == Counted(FIRST_PAGE, Some(stamp), page, Reads(|s.log| - 1, s.now, |s.log| - 1, s.now))
  {
    hide Reachable, Fetched, Count, Assemble, QueryOk;
    var s1 := Apply(cfg, s, Ask(next, FIRST_PAGE));
    ReachableStep(cfg, s, Ask(next, FIRST_PAGE));
    var s2 := Apply(cfg, s1, ReadGeneration(next, true));
    ReachableStep(cfg, s1, ReadGeneration(next, true));
    var s3 := Apply(cfg, s2, ReadPage(next, true, true));
    ReachableStep(cfg, s2, ReadPage(next, true, true));
    var s4 := Apply(cfg, s3, RunList(next));
    ReachableStep(cfg, s3, RunList(next));
    s5 := Apply(cfg, s4, RunCount(next));
    ReachableStep(cfg, s4, RunCount(next));
  }

  /** The page of an empty table is not the page of a table with a task in it. */
  lemma PagesDiffer(clock: int, clock': int)
    ensures QueryOk(FIRST_PAGE)
    ensures Evaluate([], FIRST_PAGE, clock) != Evaluate([NEW_TASK], FIRST_PAGE, clock')
  {
    assert Matches(FIRST_PAGE, clock', NEW_TASK);
    assert Count([], FIRST_PAGE, clock) == 0 && Count([NEW_TASK], FIRST_PAGE, clock') == 1;
  }

  /** A reader holds the empty page, stamped with generation `g` at the counter's last live moment. */
  lemma ReaderAtLastMoment(cfg: Config, g: nat) returns (s: State)
    requires 0 < g
    ensures Reachable(cfg, s) && Quiet(s, g + 1) && Table(s) == [] && QueryOk(FIRST_PAGE) && s.redis.pages == map[]
    ensures TEAM in s.redis.gens && s.redis.gens[TEAM] == Counter(g, s.now) && LifetimeOf(s, TEAM).number == 0
    ensures g in s.procs && s.procs[g].Counted? && s.procs[g].q == FIRST_PAGE
    ensures s.procs[g].stamp == Some(Stamp(g, 0, s.now)) && Ok(s.procs[g].page) == Evaluate([], FIRST_PAGE, s.now)
  {
    hide Reachable, TeamRows, Evaluate, Fetched, Assemble, Count, QueryOk;
    InitialReachable(cfg);
    PagesDiffer(0, 0);
    var busy := WriteMany(cfg, Initial([]), [], 0, g);
    var aged := Apply(cfg, busy, Tick(cfg.genTtl));
    ReachableStep(cfg, busy, Tick(cfg.genTtl));
    assert aged.redis.pages == map[] && Generation(aged.redis, TEAM) == g;
    s := ReadTable(cfg, aged, g);
    EvaluatedIs([], s.now);
  }

  /** What time does to the team's counter and to one page. */
  lemma TimePasses(cfg: Config, s: State, elapsed: nat, k: PageKey)
    requires s.log != []
    ensures var s' := Apply(cfg, s, Tick(elapsed));
      && s'.now == s.now + elapsed && s'.log == s.log && s'.procs == s.procs
      && (k in s.redis.pages && s'.now <= s.redis.pages[k].expires ==> k in s'.redis.pages && s'.redis.pages[k] == s.redis.pages[k])
      && if TEAM in s.redis.gens && s.redis.gens[TEAM].expires < s'.now then
           && TEAM !in s'.redis.gens
           && var l, l' := LifetimeOf(s, TEAM), LifetimeOf(s', TEAM);
              l'.number == l.number + 1 && l'.lastGen == s.redis.gens[TEAM].value && l'.endedAt == s.redis.gens[TEAM].expires
         else
           && LifetimeOf(s', TEAM) == LifetimeOf(s, TEAM)
           && (TEAM in s'.redis.gens <==> TEAM in s.redis.gens)
           && (TEAM in s'.redis.gens ==> s'.redis.gens[TEAM] == s.redis.gens[TEAM])
  {
  }

  /** The reader stores its page `delay` later, and `rest` after that the counter is gone and the page is not. */
  lemma StoredLate(cfg: Config, g: nat, delay: nat, rest: nat) returns (s: State)
    requires 0 < g && 0 < delay + rest && delay <= cfg.maxDelay && rest <= cfg.pageTtl
    ensures Reachable(cfg, s) && Quiet(s, g + 1) && Table(s) == [] && TEAM !in s.redis.gens
    ensures var l := LifetimeOf(s, TEAM); l.number == 1 && l.lastGen == g && s.now == l.endedAt + delay + rest
    ensures var k := PageKey(FIRST_PAGE, g);
      k in s.redis.pages && exists clock :: QueryOk(FIRST_PAGE) && Ok(s.redis.pages[k].value.page) == Evaluate([], FIRST_PAGE, clock)
  {
    hide Reachable, Evaluate, QueryOk, LifetimeOf, EndLifetimes, Purge;
    var k := PageKey(FIRST_PAGE, g);
    var s0 := ReaderAtLastMoment(cfg, g);
    var s1 := Apply(cfg, s0, Tick(delay));
    ReachableStep(cfg, s0, Tick(delay));
    TimePasses(cfg, s0, delay, k);
    var s2 := Apply(cfg, s1, SetPage(g, true));
    ReachableStep(cfg, s1, SetPage(g, true));
    SameLifetimes(s1, s2);
    s := Apply(cfg, s2, Tick(rest));
    ReachableStep(cfg, s2, Tick(rest));
    TimePasses(cfg, s2, rest, k);
  }

  lemma SameLifetimes(s: State, s': State)
    requires s'.lifetimes == s.lifetimes
    ensures LifetimeOf(s', TEAM) == LifetimeOf(s, TEAM)
  {
  }

  /** The page a reader would now be served does not agree with the table. */
  predicate ServesStale(s: State, q: Query)
  {
    && s.log != [] && QueryOk(q) && Lookup(s.redis, q, Generation(s.redis, q.team)).Some?
    && Evaluate(Table(s), q, s.now) != Ok(Lookup(s.redis, q, Generation(s.redis, q.team)).value.page)
  }

  /** In state `s` the counter is back at `g`, where its last lifetime ended `e` ago. */
  predicate BackAt(s: State, t: Id, g: nat, e: int)
  {
    var l := LifetimeOf(s, t);
    0 < l.number && Generation(s.redis, t) == g == l.lastGen && s.now == l.endedAt + e
  }

  /** For every generation `g` and every moment `e` of the unsafe window there is a run, with every
      bump succeeding, after which the counter is back at `g` and a stale page is served. */
  lemma RestartCanServeStale(cfg: Config, g: nat, e: nat) returns (s: State)
    requires 0 < g && 1 <= e <= cfg.maxDelay + cfg.pageTtl
    ensures Reachable(cfg, s) && Settled(s, TEAM) && BackAt(s, TEAM, g, e) && ServesStale(s, FIRST_PAGE)
  {
    hide Reachable, TeamRows, Evaluate, QueryOk, LifetimeOf;
    var delay := if e <= cfg.pageTtl then 0 else e - cfg.pageTtl;
    var stored := StoredLate(cfg, g, delay, e - delay);
    OnlyTeamChanges();
    s := WriteMany(cfg, stored, [NEW_TASK], g + 1, g);
    var clock :| Ok(stored.redis.pages[PageKey(FIRST_PAGE, g)].value.page) == Evaluate([], FIRST_PAGE, clock);
    PagesDiffer(clock, s.now);
  }

  /** Being caught up is needed: after one lost bump the page stored before the commit is still served. */
  lemma LostBumpCanServeStale(cfg: Config) returns (s: State)
    ensures Reachable(cfg, s) && LifetimeOf(s, TEAM).number == 0 && !CaughtUp(s, TEAM) && ServesStale(s, FIRST_PAGE)
  {
    hide Reachable, TeamRows, Evaluate, QueryOk, Fetched, Assemble, Count;
    InitialReachable(cfg);
    PagesDiffer(0, 0);
    OnlyTeamChanges();
    var read := ReadTable(cfg, Initial([]), 0);
    EvaluatedIs([], 0);
    var stored := Apply(cfg, read, SetPage(0, true));
    ReachableStep(cfg, read, SetPage(0, true));
    var begun := Apply(cfg, stored, BeginWrite(1, TEAM));
    ReachableStep(cfg, stored, BeginWrite(1, TEAM));
    var committed := Apply(cfg, begun, CommitWrite(1, [NEW_TASK]));
    ReachableStep(cfg, begun, CommitWrite(1, [NEW_TASK]));
    s := Apply(cfg, committed, Invalidate(1, false));
    ReachableStep(cfg, committed, Invalidate(1, false));
    assert s.log[1].team == TEAM;
  }

  /** Some run of caught-up writers ends with the counter back at `g`, `e` after its last lifetime, serving a stale page. */
  ghost predicate CanServeStale(cfg: Config, g: nat, e: int)
  {
    exists s: State, q: Query :: Reachable(cfg, s) && CaughtUp(s, q.team) && !q.overdue && BackAt(s, q.team, g, e) && ServesStale(s, q)
  }

  /** Exactly when a counter restart is a hazard: from the first moment after the last lifetime
      to the last at which a page stamped in it can be live, for any generation but 0. */
  lemma RestartHazardIff(cfg: Config, g: nat, e: int)
    requires cfg.pageTtl + cfg.maxDelay < cfg.genTtl
    ensures CanServeStale(cfg, g, e) <==> 0 < g && 1 <= e <= cfg.maxDelay + cfg.pageTtl
  {
    hide Reachable, Settled, CaughtUp, ServesStale, Inv;
    if 0 < g && 1 <= e <= cfg.maxDelay + cfg.pageTtl {
      var s := RestartCanServeStale(cfg, g, e);
      ReachableInv(cfg, s);
      SettledIsCaughtUp(cfg, s, TEAM);
      assert CaughtUp(s, FIRST_PAGE.team);
    }
    if CanServeStale(cfg, g, e) {
      var s: State, q: Query :| Reachable(cfg, s) && CaughtUp(s, q.team) && !q.overdue && BackAt(s, q.team, g, e) && ServesStale(s, q);
      StaleOnlyInWindow(cfg, s, q);
      ReachableInv(cfg, s);
      TeamIsOk(cfg, s, q.team);
    }
  }

  lemma StaleOnlyInWindow(cfg: Config, s: State, q: Query)
    requires Reachable(cfg, s) && cfg.pageTtl + cfg.maxDelay < cfg.genTtl
    requires CaughtUp(s, q.team) && !q.overdue && ServesStale(s, q)
    ensures !RestartSafe(cfg, s, q.team)
  {
    hide Reachable, CaughtUp, QueryOk, Evaluate;
    if RestartSafe(cfg, s, q.team) {
      ServedPagesAgree(cfg, s, q);
    }
  }

  lemma InitialReachable(cfg: Config)
    ensures Reachable(cfg, Initial([]))
  {
    assert Feasible(cfg, Initial([]), []) && Initial([]) == Execute(cfg, Initial([]), []);
  }

  lemma OnlyTeamChanges()
    ensures forall t :: t != TEAM ==> TeamRows([NEW_TASK], t) == TeamRows([], t)
  {
  }
}
