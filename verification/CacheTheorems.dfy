/** What a reader of the task-list cache may rely on, over every run. */
module CacheTheorems {
  import opened Domain
  import opened Sequences
  import opened TaskQuery
  import opened TaskCache
  import opened CacheProtocol
  import opened CacheSafety

  // ----- a query sees its own team's rows, and the clock only when it asks for overdue tasks -----

  lemma FilterByTeam(p: Task -> bool, team: Id, rows: seq<Task>)
    requires forall t :: p(t) ==> t.team == team
    ensures Filter(p, rows) == Filter(p, TeamRows(rows, team))
  {
    FilterFilter(p, (t: Task) => t.team == team, p, rows);
  }

  lemma SelectionIgnoresOthers(rows: seq<Task>, rows': seq<Task>, q: Query, clock: int, clock': int, after: Option<Cursor>)
    requires TeamRows(rows, q.team) == TeamRows(rows', q.team) && !q.overdue
    ensures Filter(t => Selected(q, clock, after, t), rows) == Filter(t => Selected(q, clock', after, t), rows')
    ensures Filter(t => Matches(q, clock, t), rows) == Filter(t => Matches(q, clock', t), rows')
  {
    FilterByTeam(t => Selected(q, clock, after, t), q.team, rows);
    FilterByTeam(t => Selected(q, clock', after, t), q.team, rows');
    FilterByTeam(t => Matches(q, clock, t), q.team, rows);
    FilterByTeam(t => Matches(q, clock', t), q.team, rows');
    FilterSame(t => Selected(q, clock, after, t), t => Selected(q, clock', after, t), TeamRows(rows, q.team));
    FilterSame(t => Matches(q, clock, t), t => Matches(q, clock', t), TeamRows(rows, q.team));
  }

  lemma EvaluationIgnoresOthers(rows: seq<Task>, rows': seq<Task>, q: Query, clock: int, clock': int)
    requires TeamRows(rows, q.team) == TeamRows(rows', q.team) && !q.overdue && QueryOk(q)
    ensures Fetched(rows, q, clock) == Fetched(rows', q, clock')
    ensures Count(rows, q, clock) == Count(rows', q, clock')
  {
    SelectionIgnoresOthers(rows, rows', q, clock, clock', StartAfter(q).value);
    hide Matches, SortRows, StartAfter, Slice;
  }

  /** A team's rows are the same in two table states with none of its commits in between. */
  lemma {:induction false} RowsUnchanged(s: State, t: Id, i: nat)
    requires LogOk(s) && i < |s.log|
    requires forall j :: i < j < |s.log| ==> s.log[j].team != t
    ensures TeamRows(s.log[i].rows, t) == TeamRows(Table(s), t)
    decreases |s.log| - i
  {
    if i + 1 < |s.log| {
      assert TeamRows(s.log[i + 1].rows, t) == TeamRows(s.log[i].rows, t);
      RowsUnchanged(s, t, i + 1);
    }
  }

  // ----- exact agreement -----

  /** Each commit of the team was followed by a successful bump, its own or a later one, or by
      the end of the counter's lifetime. */
  predicate CaughtUp(s: State, t: Id)
  {
    forall i :: 0 < i < |s.log| && s.log[i].team == t ==> i <= Last(LifetimeOf(s, t).floors)
  }

  /** A successful bump catches its team up, whoever failed to bump before. */
  lemma BumpCatchesUp(cfg: Config, s: State, pid: nat)
    requires Enabled(cfg, s, Invalidate(pid, true))
    ensures CaughtUp(Apply(cfg, s, Invalidate(pid, true)), s.procs[pid].team)
  {
  }

  /** Only a commit of the team itself leaves it behind again. */
  lemma StaysCaughtUp(cfg: Config, s: State, step: Step, t: Id)
    requires Inv(cfg, s) && Enabled(cfg, s, step) && CaughtUp(s, t)
    requires step.CommitWrite? ==> s.procs[step.pid].team != t
    ensures CaughtUp(Apply(cfg, s, step), t)
  {
    hide TeamRows, QueryOk, Fetched, Count, Assemble, Lookup, Store, Inv;
    TeamIsOk(cfg, s, t);
  }

  /** With no bump outstanding and none lost, every team is caught up. */
  lemma SettledIsCaughtUp(cfg: Config, s: State, t: Id)
    requires Inv(cfg, s) && Settled(s, t)
    ensures CaughtUp(s, t)
  {
    hide ProcessOk, EntryOk, TeamRows, TeamOk;
    forall i: nat | 0 < i < |s.log| && s.log[i].team == t
      ensures i <= Last(LifetimeOf(s, t).floors)
    {
      SettledOwesNothing(s, t, i);
    }
  }

  /** No commit of the team is waiting for its bump, and none lost it. */
  predicate Settled(s: State, t: Id)
  {
    forall pid :: pid in s.procs ==>
      !(s.procs[pid].Committed? && s.procs[pid].team == t) && !(s.procs[pid].Unbumped? && s.procs[pid].team == t)
  }

  /** The counter never restarted, or has not climbed back to the last generation of its
      previous lifetime, or did so after every page of that lifetime was gone. */
  predicate RestartSafe(cfg: Config, s: State, t: Id)
  {
    var l := LifetimeOf(s, t);
    || l.number == 0
    || Generation(s.redis, t) != l.lastGen
    || l.endedAt + cfg.maxDelay + cfg.pageTtl < s.now
  }

  lemma SettledOwesNothing(s: State, t: Id, i: nat)
    requires Settled(s, t)
    ensures !Pending(s, t, i)
  {
  }

  /** When the team is caught up, data read under the current generation is the current data. */
  lemma CaughtUpIsCurrent(cfg: Config, s: State, t: Id, st: Stamp, idx: nat)
    requires Inv(cfg, s) && CaughtUp(s, t) && idx < |s.log|
    requires st.gen == Generation(s.redis, t) && st.epoch == LifetimeOf(s, t).number && Fresh(s, t, st, idx)
    ensures TeamRows(s.log[idx].rows, t) == TeamRows(Table(s), t)
  {
    hide ProcessOk, EntryOk, TeamRows;
    assert TeamOk(cfg, s, t);
    RowsUnchanged(s, t, idx);
  }

  lemma PageIsCurrent(cfg: Config, s: State, q: Query, page: Page, r: Reads, st: Stamp)
    requires Inv(cfg, s) && CaughtUp(s, q.team) && PageFrom(s, q, page, r) && !q.overdue
    requires st.gen == Generation(s.redis, q.team) && st.epoch == LifetimeOf(s, q.team).number
    requires Fresh(s, q.team, st, r.listIdx) && Fresh(s, q.team, st, r.countIdx)
    ensures Evaluate(Table(s), q, s.now) == Ok(page)
  {
    hide Inv, Fresh, TeamRows, Fetch, Count, Assemble, StartAfter;
    CaughtUpIsCurrent(cfg, s, q.team, st, r.listIdx);
    CaughtUpIsCurrent(cfg, s, q.team, st, r.countIdx);
    EvaluationIgnoresOthers(s.log[r.listIdx].rows, Table(s), q, r.listAt, s.now);
    EvaluationIgnoresOthers(s.log[r.countIdx].rows, Table(s), q, r.countAt, s.now);
  }

  /** In every reachable state, a page a reader would now be served equals direct evaluation
      of its query on the current table, unless a commit of the team has had no bump since or the
      counter restarted unsafely. Earlier failed bumps do no harm. */
  lemma ServedPagesAgree(cfg: Config, s: State, q: Query)
    requires Reachable(cfg, s) && cfg.pageTtl + cfg.maxDelay < cfg.genTtl
    requires CaughtUp(s, q.team) && RestartSafe(cfg, s, q.team) && !q.overdue
    requires Lookup(s.redis, q, Generation(s.redis, q.team)).Some?
    ensures s.log != [] && QueryOk(q)
    ensures Evaluate(Table(s), q, s.now) == Ok(Lookup(s.redis, q, Generation(s.redis, q.team)).value.page)
  {
    ReachableInv(cfg, s);
    var k := PageKey(q, Generation(s.redis, q.team));
    var v := s.redis.pages[k].value;
    assert EntryOk(cfg, s, k, s.redis.pages[k]);
    if v.stamp.epoch < LifetimeOf(s, q.team).number {
      OldPageIsLastGeneration(cfg, s, k);
      assert false;
    }
    PageIsCurrent(cfg, s, q, v.page, v.src, v.stamp);
  }

  /** The same holds of a page that a reader is about to store under the current generation. */
  lemma PagesToStoreAgree(cfg: Config, s: State, pid: nat)
    requires Reachable(cfg, s) && pid in s.procs && s.procs[pid].Counted? && s.procs[pid].stamp.Some?
    requires var p := s.procs[pid];
      && !p.q.overdue && CaughtUp(s, p.q.team)
      && p.stamp.value.gen == Generation(s.redis, p.q.team) && p.stamp.value.epoch == LifetimeOf(s, p.q.team).number
    ensures s.log != [] && QueryOk(s.procs[pid].q)
    ensures Evaluate(Table(s), s.procs[pid].q, s.now) == Ok(s.procs[pid].page)
  {
    ReachableInv(cfg, s);
    var Counted(q, st, page, r) := s.procs[pid];
    assert ProcessOk(cfg, s, s.procs[pid]);
    PageIsCurrent(cfg, s, q, page, r, st.value);
  }

  // ----- counter restarts -----

  /** A page of an earlier counter lifetime that is still stored was written under the last
      generation of the lifetime just ended, and is gone `maxDelay + pageTtl` after its end. */
  lemma OldPageIsLastGeneration(cfg: Config, s: State, k: PageKey)
    requires Inv(cfg, s) && cfg.pageTtl + cfg.maxDelay < cfg.genTtl
    requires k in s.redis.pages
    ensures var l, st := LifetimeOf(s, k.query.team), s.redis.pages[k].value.stamp;
      st.epoch < l.number ==>
        && st.epoch + 1 == l.number && k.gen == l.lastGen
        && s.now <= l.endedAt + cfg.maxDelay + cfg.pageTtl
  {
    assert EntryOk(cfg, s, k, s.redis.pages[k]) && TeamOk(cfg, s, k.query.team);
  }

  /** After a restart, a reader can be served a page of an earlier lifetime only under the
      last generation of the lifetime before, and only within `maxDelay + pageTtl` of its end. */
  lemma RestartServesOnlyLastGeneration(cfg: Config, s: State, q: Query)
    requires Reachable(cfg, s) && cfg.pageTtl + cfg.maxDelay < cfg.genTtl
    requires Lookup(s.redis, q, Generation(s.redis, q.team)).Some?
    requires Lookup(s.redis, q, Generation(s.redis, q.team)).value.stamp.epoch < LifetimeOf(s, q.team).number
    ensures var l := LifetimeOf(s, q.team);
      && Generation(s.redis, q.team) == l.lastGen && 0 < l.lastGen
      && s.now <= l.endedAt + cfg.maxDelay + cfg.pageTtl
  {
    ReachableInv(cfg, s);
    assert TeamOk(cfg, s, q.team);
    OldPageIsLastGeneration(cfg, s, PageKey(q, Generation(s.redis, q.team)));
  }

  // ----- bounded staleness -----

  /** With failed bumps, Redis errors and counter restarts all allowed, a page served from the
      cache is the query evaluated on table states that were in force no earlier than the page
      TTL plus the longest read-to-store delay before it was served. */
  lemma StalenessIsBounded(cfg: Config, s: State, pid: nat)
    requires Reachable(cfg, s) && pid in s.procs && s.procs[pid].Answered? && s.procs[pid].hit
    ensures var Answered(q, page, r, _, at) := s.procs[pid];
      && PageFrom(s, q, page, r)
      && at - cfg.pageTtl - cfg.maxDelay <= r.listAt <= r.countAt <= at
  {
    ReachableInv(cfg, s);
    assert ProcessOk(cfg, s, s.procs[pid]);
  }

  /** Every Redis command may go unanswered: reads then fall through to the table without a stamp,
      a page is returned without being stored, and a bump is lost for good. */
  lemma CommandsMayFail(cfg: Config, s: State, pid: nat)
    requires s.log != [] && pid in s.procs
    ensures s.procs[pid].Asking? ==>
      Enabled(cfg, s, ReadGeneration(pid, false)) && Apply(cfg, s, ReadGeneration(pid, false)).procs[pid] == Missed(s.procs[pid].q, None)
    ensures s.procs[pid].Stamped? ==>
      && Enabled(cfg, s, ReadPage(pid, false, true)) && Apply(cfg, s, ReadPage(pid, false, true)).procs[pid] == Missed(s.procs[pid].q, None)
      && Enabled(cfg, s, ReadPage(pid, true, false)) && Apply(cfg, s, ReadPage(pid, true, false)).procs[pid] == Missed(s.procs[pid].q, Some(s.procs[pid].seen))
    ensures s.procs[pid].Counted? ==>
      && Enabled(cfg, s, SetPage(pid, false))
      && var s' := Apply(cfg, s, SetPage(pid, false)); s'.redis == s.redis && s'.procs[pid].Answered? && s'.procs[pid].page == s.procs[pid].page
    ensures s.procs[pid].Committed? ==>
      && Enabled(cfg, s, Invalidate(pid, false))
      && var s' := Apply(cfg, s, Invalidate(pid, false)); s'.redis == s.redis && s'.procs[pid].Unbumped?
  {
  }

  /** The answer a reader gets from the cache is the page it finds there, which is the query evaluated
      on table states in force no earlier than that. */
  lemma CacheServes(cfg: Config, s: State, pid: nat)
    requires Reachable(cfg, s) && Enabled(cfg, s, ReadPage(pid, true, true))
    requires Lookup(s.redis, s.procs[pid].q, s.procs[pid].seen.gen).Some?
    ensures var q, found := s.procs[pid].q, Lookup(s.redis, s.procs[pid].q, s.procs[pid].seen.gen).value;
      var p := Apply(cfg, s, ReadPage(pid, true, true)).procs[pid];
      && p == Answered(q, found.page, found.src, true, s.now)
      && PageFrom(s, q, found.page, found.src)
      && s.now - cfg.pageTtl - cfg.maxDelay <= found.src.listAt <= found.src.countAt <= s.now
  {
    hide PageFrom, StampOk, Fresh;
    ReachableInv(cfg, s);
    var k := PageKey(s.procs[pid].q, s.procs[pid].seen.gen);
    assert EntryOk(cfg, s, k, s.redis.pages[k]);
    RecentReads(cfg, s, k);
  }

  lemma RecentReads(cfg: Config, s: State, k: PageKey)
    requires Inv(cfg, s) && k in s.redis.pages
    ensures var r := s.redis.pages[k].value.src; s.now - cfg.pageTtl - cfg.maxDelay <= r.listAt <= r.countAt <= s.now
  {
    hide ProcessOk, LogOk, Covered, TeamOk, Fresh, StampOk;
    assert EntryOk(cfg, s, k, s.redis.pages[k]);
  }

  /** A reader that finds nothing, or nothing it can decode, evaluates the query on the table itself: a
      reader undisturbed by writers stores and returns exactly that. */
  lemma MissReadsTable(cfg: Config, s: State, pid: nat)
    requires Reachable(cfg, s) && pid in s.procs && s.procs[pid].Missed?
    requires s.procs[pid].stamp.Some? ==> s.now <= s.procs[pid].stamp.value.at + cfg.maxDelay
    ensures QueryOk(s.procs[pid].q) && s.log != []
    ensures var q := s.procs[pid].q;
      && Enabled(cfg, s, RunList(pid))
      && var listed := Apply(cfg, s, RunList(pid));
         && Enabled(cfg, listed, RunCount(pid))
         && var counted := Apply(cfg, listed, RunCount(pid));
            && Enabled(cfg, counted, SetPage(pid, true))
            && var done := Apply(cfg, counted, SetPage(pid, true));
               var p, stamp := done.procs[pid], s.procs[pid].stamp;
               && p.Answered? && !p.hit && Evaluate(Table(s), q, s.now) == Ok(p.page)
               && (stamp.Some? ==>
                     var k := PageKey(q, stamp.value.gen);
                     k in done.redis.pages && done.redis.pages[k].value.page == p.page && done.redis.pages[k].expires == s.now + cfg.pageTtl)
  {
    hide Fetch, Count, Assemble, StartAfter;
    ReachableInv(cfg, s);
    assert ProcessOk(cfg, s, s.procs[pid]);
  }

  /** With the counter's TTL in use, a page TTL within its configured bound and readers that take less
      than 23 hours, the premise on times holds: served pages agree. */
  lemma DeployedPagesAgree(pageTtl: nat, maxDelay: nat, s: State, q: Query)
    requires pageTtl <= 3600 * 1000 && maxDelay < 23 * 3600 * 1000
    requires var cfg := Config(pageTtl, GEN_TTL, maxDelay);
      Reachable(cfg, s) && CaughtUp(s, q.team) && RestartSafe(cfg, s, q.team) && !q.overdue
    requires Lookup(s.redis, q, Generation(s.redis, q.team)).Some?
    ensures GEN_TTL == 24 * 3600 * 1000 && s.log != [] && QueryOk(q)
    ensures Evaluate(Table(s), q, s.now) == Ok(Lookup(s.redis, q, Generation(s.redis, q.team)).value.page)
  {
    hide Reachable, CaughtUp, RestartSafe, QueryOk, Evaluate;
    ServedPagesAgree(Config(pageTtl, GEN_TTL, maxDelay), s, q);
  }

  // ----- freshness -----

  /** Nothing reader `pid` holds, or may still be served, was read before commit `idx` of its team. */
  predicate AtLeast(s: State, t: Id, pid: nat, idx: nat)
  {
    var floors := LifetimeOf(s, t).floors;
    && idx <= Last(floors) && pid in s.procs
    && match s.procs[pid]
       case Asking(q) => q.team == t
       case Stamped(q, st) => q.team == t && st.gen < |floors| && idx <= floors[st.gen]
       case Missed(q, _) => q.team == t
       case Listed(q, _, _, i, _) => q.team == t && idx <= i
       case Counted(q, _, _, r) => q.team == t && idx <= r.listIdx && idx <= r.countIdx
       case Answered(q, _, r, _, _) => q.team == t && idx <= r.listIdx && idx <= r.countIdx
       case _ => false
  }

  /** The counter never restarted, or every page of its earlier lifetimes is gone. */
  predicate OldPagesGone(cfg: Config, s: State, t: Id)
  {
    var l := LifetimeOf(s, t);
    l.number == 0 || l.endedAt + cfg.maxDelay + cfg.pageTtl < s.now
  }

  /** Within one lifetime of the counter they stay gone. */
  lemma OldPagesStayGone(cfg: Config, s: State, step: Step, t: Id)
    requires Enabled(cfg, s, step) && OldPagesGone(cfg, s, t)
    requires LifetimeOf(Apply(cfg, s, step), t).number == LifetimeOf(s, t).number
    ensures OldPagesGone(cfg, Apply(cfg, s, step), t)
  {
    hide TeamRows, QueryOk, Fetched, Count, Assemble, Lookup, Store;
  }

  lemma LifetimesGrow(cfg: Config, s: State, step: Step, t: Id)
    requires Enabled(cfg, s, step)
    ensures LifetimeOf(s, t).number <= LifetimeOf(Apply(cfg, s, step), t).number
  {
    hide TeamRows, QueryOk, Fetched, Count, Assemble, Lookup, Store;
  }

  lemma TeamIsOk(cfg: Config, s: State, t: Id)
    requires Inv(cfg, s)
    ensures TeamOk(cfg, s, t)
  {
    hide TeamOk, ProcessOk, EntryOk;
  }

  /** A page found under a generation is as new as that generation covers. */
  lemma HitIsFresh(cfg: Config, s: State, k: PageKey, idx: nat)
    requires Inv(cfg, s) && k in s.redis.pages && OldPagesGone(cfg, s, k.query.team)
    requires var floors := LifetimeOf(s, k.query.team).floors; k.gen < |floors| && idx <= floors[k.gen]
    ensures var src := s.redis.pages[k].value.src; idx <= src.listIdx && idx <= src.countIdx
  {
    hide ProcessOk, PageFrom, LogOk, Covered;
    assert EntryOk(cfg, s, k, s.redis.pages[k]);
  }

  /** The reader's own steps. */
  lemma FreshOwnStep(cfg: Config, s: State, step: Step, t: Id, pid: nat, idx: nat)
    requires Inv(cfg, s) && Enabled(cfg, s, step) && AtLeast(s, t, pid, idx)
    requires !step.Tick? && step.pid == pid && OldPagesGone(cfg, s, t)
    ensures AtLeast(Apply(cfg, s, step), t, pid, idx)
  {
    hide TeamRows, QueryOk, Fetched, Count, Assemble, Inv;
    TeamIsOk(cfg, s, t);
    if step.ReadPage? {
      var k := PageKey(s.procs[pid].q, s.procs[pid].seen.gen);
      if k in s.redis.pages {
        HitIsFresh(cfg, s, k, idx);
      }
    }
  }

  /** Everybody else's steps. */
  lemma FreshOtherStep(cfg: Config, s: State, step: Step, t: Id, pid: nat, idx: nat)
    requires Inv(cfg, s) && Enabled(cfg, s, step) && AtLeast(s, t, pid, idx)
    requires step.Tick? || step.pid != pid
    requires LifetimeOf(Apply(cfg, s, step), t).number == LifetimeOf(s, t).number
    ensures AtLeast(Apply(cfg, s, step), t, pid, idx)
  {
    hide Inv, Enabled, Apply, Last, LifetimeOf;
    TeamIsOk(cfg, s, t);
    FloorsGrow(cfg, s, step, t);
    OthersKeep(cfg, s, step, pid);
    var l, l' := LifetimeOf(s, t), LifetimeOf(Apply(cfg, s, step), t);
    assert forall g :: 0 <= g < |l.floors| ==> l'.floors[..|l.floors|][g] == l'.floors[g];
  }

  /** Within one lifetime a counter's floors are only extended. */
  lemma FloorsGrow(cfg: Config, s: State, step: Step, t: Id)
    requires Enabled(cfg, s, step) && TeamOk(cfg, s, t) && LifetimeOf(Apply(cfg, s, step), t).number == LifetimeOf(s, t).number
    ensures var l, l' := LifetimeOf(s, t), LifetimeOf(Apply(cfg, s, step), t);
      |l.floors| <= |l'.floors| && l'.floors[..|l.floors|] == l.floors && Last(l.floors) <= Last(l'.floors)
  {
    hide TeamRows, QueryOk, Fetched, Count, Assemble, Lookup, Store;
  }

  lemma OthersKeep(cfg: Config, s: State, step: Step, pid: nat)
    requires Enabled(cfg, s, step) && pid in s.procs && (step.Tick? || step.pid != pid)
    ensures pid in Apply(cfg, s, step).procs && Apply(cfg, s, step).procs[pid] == s.procs[pid]
  {
    hide TeamRows, QueryOk, Fetched, Count, Assemble, Lookup, Store, Bump, Purge, EndLifetimes;
  }

  lemma {:induction false} FreshRun(cfg: Config, s: State, steps: seq<Step>, t: Id, pid: nat, idx: nat)
    requires Inv(cfg, s) && Feasible(cfg, s, steps) && AtLeast(s, t, pid, idx) && OldPagesGone(cfg, s, t)
    requires LifetimeOf(Execute(cfg, s, steps), t).number == LifetimeOf(s, t).number
    ensures AtLeast(Execute(cfg, s, steps), t, pid, idx)
    decreases |steps|
  {
    hide Inv, Enabled, Apply, AtLeast, OldPagesGone, LifetimeOf;
    if steps != [] {
      var step, s' := steps[0], Apply(cfg, s, steps[0]);
      StepKeeps(cfg, s, step);
      LifetimesGrow(cfg, s, step, t);
      NumberGrows(cfg, s', steps[1..], t);
      OldPagesStayGone(cfg, s, step, t);
      if !step.Tick? && step.pid == pid {
        FreshOwnStep(cfg, s, step, t, pid, idx);
      } else {
        FreshOtherStep(cfg, s, step, t, pid, idx);
      }
      FreshRun(cfg, s', steps[1..], t, pid, idx);
    }
  }

  lemma {:induction false} NumberGrows(cfg: Config, s: State, steps: seq<Step>, t: Id)
    requires Feasible(cfg, s, steps)
    ensures LifetimeOf(s, t).number <= LifetimeOf(Execute(cfg, s, steps), t).number
    decreases |steps|
  {
    hide Enabled, Apply, LifetimeOf;
    if steps != [] {
      LifetimesGrow(cfg, s, steps[0], t);
      NumberGrows(cfg, Apply(cfg, s, steps[0]), steps[1..], t);
    }
  }

  /** Take any state in which writer `w` has bumped for its commit and reader `pid` has not yet
      read the generation, and any continuation in which the counter does not restart: whatever
      the reader answers, from cache or database, is evaluated on table states at least as new as
      that commit. Bumps of other writers may fail, and the counter may have restarted before,
      long enough ago for the pages of its earlier lifetimes to be gone. */
  lemma ReadersSeeBumpedCommits(cfg: Config, s: State, steps: seq<Step>, w: nat, pid: nat)
    requires Reachable(cfg, s) && Feasible(cfg, s, steps)
    requires w in s.procs && s.procs[w].Bumped?
    requires pid in s.procs && s.procs[pid].Asking? && s.procs[pid].q.team == s.procs[w].team
    requires OldPagesGone(cfg, s, s.procs[w].team)
    requires var s' := Execute(cfg, s, steps);
      LifetimeOf(s', s.procs[w].team).number == LifetimeOf(s, s.procs[w].team).number && pid in s'.procs && s'.procs[pid].Answered?
    ensures var s' := Execute(cfg, s, steps);
      var Answered(q, page, r, _, _) := s'.procs[pid];
      PageFrom(s', q, page, r) && s.procs[w].idx <= r.listIdx && s.procs[w].idx <= r.countIdx
  {
    ReachableInv(cfg, s);
    assert ProcessOk(cfg, s, s.procs[w]);
    var s' := Execute(cfg, s, steps);
    FreshRun(cfg, s, steps, s.procs[w].team, pid, s.procs[w].idx);
    RunKeeps(cfg, s, steps);
    assert ProcessOk(cfg, s', s'.procs[pid]);
  }
}
