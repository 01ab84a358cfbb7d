/** What every run of the task-list cache protocol keeps. */
module CacheSafety {
  import opened Domain
  import opened Sequences
  import opened TaskQuery
  import opened TaskCache
  import opened CacheProtocol

  // ----- every step keeps the invariant -----

  lemma InitialInv(cfg: Config, rows: seq<Task>)
    ensures Inv(cfg, Initial(rows))
  {
  }

  /** Two states in which readers, writers and entries mean the same. */
  predicate SameView(s: State, s': State)
  {
    s'.now == s.now && s'.log == s.log && s'.redis.gens == s.redis.gens && s'.lifetimes == s.lifetimes
  }

  lemma ViewDecides(cfg: Config, s: State, s': State)
    requires SameView(s, s')
    ensures forall t :: TeamOk(cfg, s, t) ==> TeamOk(cfg, s', t)
    ensures forall p :: ProcessOk(cfg, s, p) ==> ProcessOk(cfg, s', p)
    ensures forall k, e :: EntryOk(cfg, s, k, e) ==> EntryOk(cfg, s', k, e)
  {
    hide QueryOk, Fetched, Count, Assemble;
    assert forall t :: LifetimeOf(s, t) == LifetimeOf(s', t) && Generation(s.redis, t) == Generation(s'.redis, t);
    assert forall t, st :: StampOk(cfg, s, t, st) ==> StampOk(cfg, s', t, st);
    assert forall q, p, r :: PageFrom(s, q, p, r) ==> PageFrom(s', q, p, r);
  }

  predicate OwesNothing(s: State, pid: nat)
  {
    pid in s.procs ==> !s.procs[pid].Committed? && !s.procs[pid].Unbumped?
  }

  lemma CoveredByOthers(s: State, s': State, pid: nat)
    requires Covered(s) && s'.log == s.log && s'.lifetimes == s.lifetimes
    requires forall p :: p in s.procs && p != pid ==> p in s'.procs && s'.procs[p] == s.procs[p]
    requires OwesNothing(s, pid) || (pid in s.procs && pid in s'.procs && forall t, i :: s.procs[pid].Owes(t, i) ==> s'.procs[pid].Owes(t, i))
    ensures Covered(s')
  {
    forall i | 0 < i < |s'.log| && Pending(s, s.log[i].team, i)
      ensures Pending(s', s.log[i].team, i)
    {
      var p :| p in s.procs && s.procs[p].Owes(s.log[i].team, i);
      assert p in s'.procs && s'.procs[p].Owes(s.log[i].team, i);
    }
    assert forall t :: LifetimeOf(s, t) == LifetimeOf(s', t);
  }

  /** A process step that touches neither Redis nor the table. */
  lemma LocalStep(cfg: Config, s: State, pid: nat, p: Process)
    requires Inv(cfg, s) && ProcessOk(cfg, s, p)
    requires OwesNothing(s, pid) || (pid in s.procs && forall t, i :: s.procs[pid].Owes(t, i) ==> p.Owes(t, i))
    ensures Inv(cfg, Put(s, pid, p))
  {
    hide ProcessOk, EntryOk, TeamOk;
    ViewDecides(cfg, s, Put(s, pid, p));
    CoveredByOthers(s, Put(s, pid, p), pid);
  }

  lemma ReadGenerationKeeps(cfg: Config, s: State, pid: nat, answers: bool)
    requires Inv(cfg, s) && Enabled(cfg, s, ReadGeneration(pid, answers))
    ensures Inv(cfg, Apply(cfg, s, ReadGeneration(pid, answers)))
  {
    hide QueryOk, EntryOk, TeamOk;
    assert ProcessOk(cfg, s, s.procs[pid]);
    LocalStep(cfg, s, pid, Apply(cfg, s, ReadGeneration(pid, answers)).procs[pid]);
  }

  lemma ReadPageKeeps(cfg: Config, s: State, pid: nat, answers: bool, decodes: bool)
    requires Inv(cfg, s) && Enabled(cfg, s, ReadPage(pid, answers, decodes))
    ensures Inv(cfg, Apply(cfg, s, ReadPage(pid, answers, decodes)))
  {
    hide QueryOk, TeamOk, StampOk, Fetched, Count, Assemble;
    assert ProcessOk(cfg, s, s.procs[pid]);
    var k := PageKey(s.procs[pid].q, s.procs[pid].seen.gen);
    assert k in s.redis.pages ==> EntryOk(cfg, s, k, s.redis.pages[k]);
    LocalStep(cfg, s, pid, Apply(cfg, s, ReadPage(pid, answers, decodes)).procs[pid]);
  }

  /** A read of the current table is as new as any generation of the team covers. */
  lemma CurrentIsFresh(cfg: Config, s: State, t: Id, st: Stamp)
    requires LogOk(s) && TeamOk(cfg, s, t) && StampOk(cfg, s, t, st)
    ensures Fresh(s, t, st, |s.log| - 1) && ReadOk(s, |s.log| - 1, s.now)
  {
  }

  lemma RunListKeeps(cfg: Config, s: State, pid: nat)
    requires Inv(cfg, s) && Enabled(cfg, s, RunList(pid))
    ensures Inv(cfg, Apply(cfg, s, RunList(pid)))
  {
    hide QueryOk, TeamOk, EntryOk, StampOk, Fresh, Fetched, Count, Assemble;
    var Missed(q, st) := s.procs[pid];
    assert ProcessOk(cfg, s, s.procs[pid]);
    if st.Some? {
      CurrentIsFresh(cfg, s, q.team, st.value);
      assert st.value.at <= s.now by { StampInPast(cfg, s, q.team, st.value); }
    }
    LocalStep(cfg, s, pid, Apply(cfg, s, RunList(pid)).procs[pid]);
  }

  lemma StampInPast(cfg: Config, s: State, t: Id, st: Stamp)
    requires StampOk(cfg, s, t, st)
    ensures st.at <= s.now
  {
  }

  lemma RunCountKeeps(cfg: Config, s: State, pid: nat)
    requires Inv(cfg, s) && Enabled(cfg, s, RunCount(pid))
    ensures Inv(cfg, Apply(cfg, s, RunCount(pid)))
  {
    hide QueryOk, TeamOk, EntryOk, StampOk, Fresh, Fetched, Count, Assemble;
    var Listed(q, st, fetched, listIdx, listAt) := s.procs[pid];
    assert ProcessOk(cfg, s, s.procs[pid]);
    if st.Some? {
      CurrentIsFresh(cfg, s, q.team, st.value);
    }
    LocalStep(cfg, s, pid, Apply(cfg, s, RunCount(pid)).procs[pid]);
  }

  lemma SetPageKeeps(cfg: Config, s: State, pid: nat, answers: bool)
    requires Inv(cfg, s) && Enabled(cfg, s, SetPage(pid, answers))
    ensures Inv(cfg, Apply(cfg, s, SetPage(pid, answers)))
  {
    hide QueryOk, TeamOk, EntryOk, ProcessOk, Covered, LogOk;
    var Counted(q, st, page, src) := s.procs[pid];
    var p := Answered(q, page, src, false, s.now);
    var done := Put(s, pid, p);
    CountedIsAnswer(cfg, s, q, st, page, src);
    LocalStep(cfg, s, pid, p);
    if answers && st.Some? {
      ViewDecides(cfg, s, done);
      StoreKeeps(cfg, done, q, Traced(page, src, st.value, s.now));
    }
  }

  /** A page ready to be stored is a valid answer and, in time, a valid entry. */
  lemma CountedIsAnswer(cfg: Config, s: State, q: Query, st: Option<Stamp>, page: Page, src: Reads)
    requires ProcessOk(cfg, s, Counted(q, st, page, src))
    ensures ProcessOk(cfg, s, Answered(q, page, src, false, s.now))
    ensures st.Some? && s.now <= st.value.at + cfg.maxDelay ==>
      EntryOk(cfg, s, PageKey(q, st.value.gen), Entry(Traced(page, src, st.value, s.now), s.now + cfg.pageTtl))
  {
    hide QueryOk, StampOk, Fresh, Fetched, Count, Assemble;
  }

  lemma StoreKeeps(cfg: Config, s: State, q: Query, v: Traced)
    requires Inv(cfg, s) && EntryOk(cfg, s, PageKey(q, v.stamp.gen), Entry(v, s.now + cfg.pageTtl))
    ensures Inv(cfg, s.(redis := Store(s.redis, q, v.stamp.gen, v, s.now + cfg.pageTtl)))
  {
    hide ProcessOk, EntryOk, TeamOk;
    var s' := s.(redis := Store(s.redis, q, v.stamp.gen, v, s.now + cfg.pageTtl));
    ViewDecides(cfg, s, s');
    assert forall k :: k in s'.redis.pages ==>
      s'.redis.pages[k] == (if k == PageKey(q, v.stamp.gen) then Entry(v, s.now + cfg.pageTtl) else s.redis.pages[k]);
    CoveredSame(s, s');
  }

  lemma CoveredSame(s: State, s': State)
    requires Covered(s) && s'.log == s.log && s'.lifetimes == s.lifetimes && s'.procs == s.procs
    ensures Covered(s')
  {
    assert forall t :: LifetimeOf(s, t) == LifetimeOf(s', t);
    assert forall t, i :: Pending(s, t, i) == Pending(s', t, i);
  }

  lemma FailedInvalidateKeeps(cfg: Config, s: State, pid: nat)
    requires Inv(cfg, s) && Enabled(cfg, s, Invalidate(pid, false))
    ensures Inv(cfg, Apply(cfg, s, Invalidate(pid, false)))
  {
    hide TeamOk, EntryOk;
    assert ProcessOk(cfg, s, s.procs[pid]);
    LocalStep(cfg, s, pid, Apply(cfg, s, Invalidate(pid, false)).procs[pid]);
  }

  // ----- commit -----

  lemma CommitKeeps(cfg: Config, s: State, pid: nat, rows: seq<Task>)
    requires Inv(cfg, s) && Enabled(cfg, s, CommitWrite(pid, rows))
    ensures Inv(cfg, Apply(cfg, s, CommitWrite(pid, rows)))
  {
    hide ProcessOk, EntryOk, TeamOk, TeamRows;
    var team := s.procs[pid].team;
    var s' := Apply(cfg, s, CommitWrite(pid, rows));
    GrownLog(cfg, s, s', Commit(team, rows, s.now));
    assert s'.procs[pid].Owes(team, |s.log|);
    forall i | 0 < i < |s'.log|
      ensures i <= Last(LifetimeOf(s', s'.log[i].team).floors) || Pending(s', s'.log[i].team, i)
    {
      if i < |s.log| && Pending(s, s.log[i].team, i) {
        var p :| p in s.procs && s.procs[p].Owes(s.log[i].team, i);
        assert s'.procs[p].Owes(s'.log[i].team, i);
      }
    }
    assert ProcessOk(cfg, s', s'.procs[pid]) by { NewCommit(cfg, s', team); }
  }

  lemma NewCommit(cfg: Config, s: State, team: Id)
    requires |s.log| > 1 && s.log[|s.log| - 1].team == team
    ensures ProcessOk(cfg, s, Committed(team, |s.log| - 1))
  {
  }

  /** Appending a commit made now invalidates nothing already read. */
  lemma GrownLog(cfg: Config, s: State, s': State, c: Commit)
    requires LogOk(s) && c.at == s.now
    requires s'.now == s.now && s'.log == s.log + [c] && s'.redis == s.redis && s'.lifetimes == s.lifetimes
    ensures forall t :: TeamOk(cfg, s, t) ==> TeamOk(cfg, s', t)
    ensures forall p :: ProcessOk(cfg, s, p) ==> ProcessOk(cfg, s', p)
    ensures forall k, e :: EntryOk(cfg, s, k, e) ==> EntryOk(cfg, s', k, e)
  {
    hide QueryOk, Fetched, Count, Assemble;
    assert forall t :: LifetimeOf(s, t) == LifetimeOf(s', t);
    assert forall i: nat, at :: ReadOk(s, i, at) ==> ReadOk(s', i, at) && s'.log[i] == s.log[i];
    assert forall q, p, r :: PageFrom(s, q, p, r) ==> PageFrom(s', q, p, r);
    assert forall t, st :: StampOk(cfg, s, t, st) ==> StampOk(cfg, s', t, st);
    assert forall t, st, i :: Fresh(s, t, st, i) ==> Fresh(s', t, st, i);
  }

  // ----- bump -----

  lemma CommittedInLog(cfg: Config, s: State, t: Id, i: nat)
    requires ProcessOk(cfg, s, Committed(t, i))
    ensures 0 < i < |s.log| && s.log[i].team == t
  {
  }

  /** `s'` is `s` with the team's generation raised to cover commit `idx`. */
  predicate Raised(cfg: Config, s: State, s': State, team: Id, idx: nat)
  {
    var l := LifetimeOf(s, team);
    && s'.now == s.now && s'.log == s.log && 0 < idx < |s.log|
    && s'.redis == Bump(s.redis, team, s.now + cfg.genTtl)
    && s'.lifetimes == s.lifetimes[team := l.(floors := l.floors + [|s.log| - 1])]
  }

  lemma RaisedTeam(cfg: Config, s: State, s': State, team: Id, idx: nat, t: Id)
    requires Raised(cfg, s, s', team, idx) && TeamOk(cfg, s, t)
    ensures TeamOk(cfg, s', t)
    ensures Last(LifetimeOf(s, t).floors) <= Last(LifetimeOf(s', t).floors)
    ensures t == team ==> idx <= Last(LifetimeOf(s', t).floors)
  {
    if t == team {
      assert LifetimeOf(s', t).floors == LifetimeOf(s, t).floors + [|s.log| - 1];
    }
  }

  lemma RaisedStamp(cfg: Config, s: State, s': State, team: Id, idx: nat, t: Id, st: Stamp)
    requires Raised(cfg, s, s', team, idx) && StampOk(cfg, s, t, st)
    ensures StampOk(cfg, s', t, st)
    ensures forall i :: Fresh(s, t, st, i) ==> Fresh(s', t, st, i)
  {
  }

  lemma RaisedProcess(cfg: Config, s: State, s': State, team: Id, idx: nat, p: Process)
    requires Raised(cfg, s, s', team, idx) && (forall t :: TeamOk(cfg, s, t)) && ProcessOk(cfg, s, p)
    ensures ProcessOk(cfg, s', p)
  {
    hide QueryOk, Fetched, Count, Assemble, StampOk, TeamOk, Fresh, Bump;
    match p
    case Stamped(q, st) => RaisedStamp(cfg, s, s', team, idx, q.team, st);
    case Missed(q, st) =>
      if st.Some? {
        RaisedStamp(cfg, s, s', team, idx, q.team, st.value);
      }
    case Listed(q, st, _, _, _) =>
      if st.Some? {
        RaisedStamp(cfg, s, s', team, idx, q.team, st.value);
      }
    case Counted(q, st, page, r) =>
      if st.Some? {
        RaisedStamp(cfg, s, s', team, idx, q.team, st.value);
      }
    case Bumped(t, _) => RaisedTeam(cfg, s, s', team, idx, t);
    case _ =>
  }

  lemma RaisedEntry(cfg: Config, s: State, s': State, team: Id, idx: nat, k: PageKey, e: Entry<Traced>)
    requires Raised(cfg, s, s', team, idx) && EntryOk(cfg, s, k, e)
    ensures EntryOk(cfg, s', k, e)
  {
    hide QueryOk, Fetched, Count, Assemble, StampOk, Fresh, Bump;
    RaisedStamp(cfg, s, s', team, idx, k.query.team, e.value.stamp);
  }

  lemma BumpKeeps(cfg: Config, s: State, pid: nat)
    requires Inv(cfg, s) && Enabled(cfg, s, Invalidate(pid, true))
    ensures Inv(cfg, Apply(cfg, s, Invalidate(pid, true)))
  {
    hide ProcessOk, EntryOk, TeamOk, TeamRows, Covered;
    var Committed(team, idx) := s.procs[pid];
    var s' := Apply(cfg, s, Invalidate(pid, true));
    assert ProcessOk(cfg, s, s.procs[pid]);
    CommittedInLog(cfg, s, team, idx);
    assert Raised(cfg, s, s', team, idx);
    forall t
      ensures TeamOk(cfg, s', t) && Last(LifetimeOf(s, t).floors) <= Last(LifetimeOf(s', t).floors)
      ensures t == team ==> idx <= Last(LifetimeOf(s', t).floors)
    {
      RaisedTeam(cfg, s, s', team, idx, t);
    }
    forall p | p in s'.procs
      ensures ProcessOk(cfg, s', s'.procs[p])
    {
      if p == pid {
        NewlyBumped(cfg, s', team, idx);
      } else {
        RaisedProcess(cfg, s, s', team, idx, s.procs[p]);
      }
    }
    forall k | k in s'.redis.pages
      ensures EntryOk(cfg, s', k, s'.redis.pages[k])
    {
      RaisedEntry(cfg, s, s', team, idx, k, s.redis.pages[k]);
    }
    BumpCovers(s, s', pid, team, idx);
  }

  lemma NewlyBumped(cfg: Config, s: State, t: Id, i: nat)
    requires 0 < i <= Last(LifetimeOf(s, t).floors)
    ensures ProcessOk(cfg, s, Bumped(t, i))
  {
  }

  lemma BumpCovers(s: State, s': State, pid: nat, team: Id, idx: nat)
    requires Covered(s) && s'.log == s.log && pid in s.procs && s.procs[pid] == Committed(team, idx)
    requires forall p :: p in s.procs && p != pid ==> p in s'.procs && s'.procs[p] == s.procs[p]
    requires forall t :: Last(LifetimeOf(s, t).floors) <= Last(LifetimeOf(s', t).floors)
    requires idx <= Last(LifetimeOf(s', team).floors)
    ensures Covered(s')
  {
    forall i | 0 < i < |s'.log|
      ensures i <= Last(LifetimeOf(s', s'.log[i].team).floors) || Pending(s', s'.log[i].team, i)
    {
      if Pending(s, s.log[i].team, i) {
        var p :| p in s.procs && s.procs[p].Owes(s.log[i].team, i);
        if p != pid {
          assert s'.procs[p].Owes(s'.log[i].team, i);
        }
      }
    }
  }

  // ----- time -----

  lemma TickKeeps(cfg: Config, s: State, elapsed: nat)
    requires Inv(cfg, s)
    ensures Inv(cfg, Apply(cfg, s, Tick(elapsed)))
  {
    hide ProcessOk, EntryOk, TeamOk, TeamRows, Covered, EndLifetimes, LifetimeOf;
    var s' := Apply(cfg, s, Tick(elapsed));
    forall t
      ensures TeamOk(cfg, s', t) && Last(LifetimeOf(s, t).floors) <= Last(LifetimeOf(s', t).floors)
    {
      TickTeam(cfg, s, t, elapsed);
    }
    forall pid | pid in s'.procs
      ensures ProcessOk(cfg, s', s'.procs[pid])
    {
      TickProcess(cfg, s, s.procs[pid], elapsed);
    }
    forall k | k in s'.redis.pages
      ensures EntryOk(cfg, s', k, s'.redis.pages[k])
    {
      TickEntry(cfg, s, k, elapsed);
    }
    TickCovers(s, s');
  }

  lemma TickCovers(s: State, s': State)
    requires Covered(s) && s'.log == s.log && s'.procs == s.procs
    requires forall t :: Last(LifetimeOf(s, t).floors) <= Last(LifetimeOf(s', t).floors)
    ensures Covered(s')
  {
    assert forall t, i :: Pending(s, t, i) == Pending(s', t, i);
  }

  lemma TickTeam(cfg: Config, s: State, t: Id, elapsed: nat)
    requires LogOk(s) && TeamOk(cfg, s, t)
    ensures var s' := Apply(cfg, s, Tick(elapsed));
      TeamOk(cfg, s', t) && Last(LifetimeOf(s, t).floors) <= Last(LifetimeOf(s', t).floors)
  {
  }

  /** A stamp stays consistent as time passes and lifetimes end. */
  lemma TickStamp(cfg: Config, s: State, t: Id, st: Stamp, elapsed: nat)
    requires LogOk(s) && TeamOk(cfg, s, t) && StampOk(cfg, s, t, st)
    ensures StampOk(cfg, Apply(cfg, s, Tick(elapsed)), t, st)
    ensures forall i :: Fresh(s, t, st, i) ==> Fresh(Apply(cfg, s, Tick(elapsed)), t, st, i)
  {
  }

  lemma TickPage(cfg: Config, s: State, q: Query, page: Page, r: Reads, elapsed: nat)
    requires LogOk(s) && PageFrom(s, q, page, r)
    ensures PageFrom(Apply(cfg, s, Tick(elapsed)), q, page, r)
  {
    hide QueryOk, Fetched, Count, Assemble;
  }

  lemma TickProcess(cfg: Config, s: State, p: Process, elapsed: nat)
    requires LogOk(s) && (forall t :: TeamOk(cfg, s, t)) && ProcessOk(cfg, s, p)
    ensures ProcessOk(cfg, Apply(cfg, s, Tick(elapsed)), p)
  {
    hide QueryOk, Fetched, Count, Assemble, TeamOk, StampOk, PageFrom, Fresh, Purge, EndLifetimes;
    match p
    case Stamped(q, st) => TickStamp(cfg, s, q.team, st, elapsed);
    case Missed(q, st) =>
      if st.Some? {
        TickStamp(cfg, s, q.team, st.value, elapsed);
      }
    case Listed(q, st, _, _, _) =>
      if st.Some? {
        TickStamp(cfg, s, q.team, st.value, elapsed);
      }
    case Counted(q, st, page, r) =>
      TickPage(cfg, s, q, page, r, elapsed);
      if st.Some? {
        TickStamp(cfg, s, q.team, st.value, elapsed);
      }
    case Answered(q, page, r, _, _) => TickPage(cfg, s, q, page, r, elapsed);
    case Bumped(t, _) => TickTeam(cfg, s, t, elapsed);
    case _ =>
  }

  lemma TickEntry(cfg: Config, s: State, k: PageKey, elapsed: nat)
    requires LogOk(s) && (forall t :: TeamOk(cfg, s, t))
    requires k in s.redis.pages && EntryOk(cfg, s, k, s.redis.pages[k])
    requires k in Apply(cfg, s, Tick(elapsed)).redis.pages
    ensures EntryOk(cfg, Apply(cfg, s, Tick(elapsed)), k, s.redis.pages[k])
  {
    hide QueryOk, Fetched, Count, Assemble, TeamOk, StampOk, PageFrom, Fresh, EndLifetimes;
    var v := s.redis.pages[k].value;
    TickStamp(cfg, s, k.query.team, v.stamp, elapsed);
    TickPage(cfg, s, k.query, v.page, v.src, elapsed);
  }

  // ----- whole runs -----

  lemma StepKeeps(cfg: Config, s: State, step: Step)
    requires Inv(cfg, s) && Enabled(cfg, s, step)
    ensures Inv(cfg, Apply(cfg, s, step))
  {
    hide Inv;
    match step
    case Ask(pid, q) => LocalStep(cfg, s, pid, Asking(q));
    case ReadGeneration(pid, answers) => ReadGenerationKeeps(cfg, s, pid, answers);
    case ReadPage(pid, answers, decodes) => ReadPageKeeps(cfg, s, pid, answers, decodes);
    case RunList(pid) => RunListKeeps(cfg, s, pid);
    case RunCount(pid) => RunCountKeeps(cfg, s, pid);
    case SetPage(pid, answers) => SetPageKeeps(cfg, s, pid, answers);
    case BeginWrite(pid, team) => LocalStep(cfg, s, pid, Writing(team));
    case CommitWrite(pid, rows) => CommitKeeps(cfg, s, pid, rows);
    case Invalidate(pid, answers) =>
      if answers {
        BumpKeeps(cfg, s, pid);
      } else {
        FailedInvalidateKeeps(cfg, s, pid);
      }
    case Tick(elapsed) => TickKeeps(cfg, s, elapsed);
  }

  lemma {:induction false} RunKeeps(cfg: Config, s: State, steps: seq<Step>)
    requires Inv(cfg, s) && Feasible(cfg, s, steps)
    ensures Inv(cfg, Execute(cfg, s, steps))
    decreases |steps|
  {
    if steps != [] {
      StepKeeps(cfg, s, steps[0]);
      RunKeeps(cfg, Apply(cfg, s, steps[0]), steps[1..]);
    }
  }

  /** `s` is reached by some interleaving of readers, writers and the clock. */
  ghost predicate Reachable(cfg: Config, s: State)
  {
    exists rows, steps :: Feasible(cfg, Initial(rows), steps) && s == Execute(cfg, Initial(rows), steps)
  }

  lemma ReachableInv(cfg: Config, s: State)
    requires Reachable(cfg, s)
    ensures Inv(cfg, s)
  {
    var rows, steps :| Feasible(cfg, Initial(rows), steps) && s == Execute(cfg, Initial(rows), steps);
    InitialInv(cfg, rows);
    RunKeeps(cfg, Initial(rows), steps);
  }
}
