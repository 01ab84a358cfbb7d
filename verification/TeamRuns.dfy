/** Membership transactions run alone: exactly when they pass, and what they leave. */
module TeamRuns {
  import opened Domain
  import opened RowLocks
  import opened Rbac
  import opened TeamLocks

  function RoleAt(rows: map<Key, Cell>, team: Id, user: Id): Option<Role>
  {
    if MemberRow(team, user) in rows && rows[MemberRow(team, user)].Has? then Some(rows[MemberRow(team, user)].role) else None
  }

  /** No transaction is open. */
  predicate Idle(s: State)
  {
    s.work == map[] && s.db.sessions == map[]
  }

  /** The transaction can run its next `n` statements, one after the other. */
  ghost predicate CanRunOn(s: State, tid: nat, n: nat)
    decreases n
  {
    n == 0 || (Enabled(s, Statement(tid)) && CanRunOn(Apply(s, Statement(tid)), tid, n - 1))
  }

  ghost function RunOn(s: State, tid: nat, n: nat): State
    requires CanRunOn(s, tid, n)
    decreases n
  {
    if n == 0 then s else RunOn(Apply(s, Statement(tid)), tid, n - 1)
  }

  /** Alone, the operation gets through all its checks and statements. */
  ghost predicate GetsThrough(s: State, tid: nat, op: Op)
    requires Idle(s)
  {
    CanRunOn(Apply(s, Start(tid, op)), tid, |Program(op)|)
  }

  /** The state it is in before it commits. */
  ghost function BeforeCommit(s: State, tid: nat, op: Op): State
    requires Idle(s) && GetsThrough(s, tid, op)
  {
    RunOn(Apply(s, Start(tid, op)), tid, |Program(op)|)
  }

  /** The state of a lone transaction between two statements. */
  function Alone(s: State, tid: nat, w: Work, locked: map<Key, Option<Cell>>, writes: map<Key, Option<Cell>>): State
  {
    State(Database(s.db.rows, map[tid := Session(locked, writes)]), map[tid := w], s.invitations)
  }

  lemma StartAlone(s: State, tid: nat, op: Op)
    requires Idle(s)
    ensures Enabled(s, Start(tid, op)) && Apply(s, Start(tid, op)) == Alone(s, tid, Work(op, 0, Member), map[], map[])
  {
  }

  lemma FreeAlone(s: State, tid: nat, w: Work, locked: map<Key, Option<Cell>>, writes: map<Key, Option<Cell>>)
    ensures forall k :: Free(Alone(s, tid, w, locked, writes).db, tid, k)
  {
  }

  /** A locking role read: possible for a member whose role passes the check made on it. */
  lemma LockAlone(s: State, tid: nat, w: Work, locked: map<Key, Option<Cell>>, writes: map<Key, Option<Cell>>, u: Id)
    requires w.stage < |Program(w.op)| && Program(w.op)[w.stage] == LockRole(u)
    ensures var st, k, role := Alone(s, tid, w, locked, writes), MemberRow(w.op.team, u), RoleAt(s.db.rows, w.op.team, u);
      && (Enabled(st, Statement(tid)) <==> role.Some? && Passes(w.op, w.stage, w.actorRole, role.value))
      && (Enabled(st, Statement(tid)) ==>
            Apply(st, Statement(tid)) == Alone(s, tid, w.(stage := w.stage + 1), locked[k := Some(Has(role.value))], writes))
  {
    hide Passes, Free;
    FreeAlone(s, tid, w, locked, writes);
    var st := Alone(s, tid, w, locked, writes);
    if Enabled(st, Statement(tid)) {
      assert Apply(st, Statement(tid)).work == map[tid := w.(stage := w.stage + 1)];
    }
  }

  lemma ReadAlone(s: State, tid: nat, w: Work, locked: map<Key, Option<Cell>>, u: Id)
    requires w.stage < |Program(w.op)| && Program(w.op)[w.stage] == ReadRole(u)
    ensures var st, role := Alone(s, tid, w, locked, map[]), RoleAt(s.db.rows, w.op.team, u);
      && (Enabled(st, Statement(tid)) <==> role.Some?)
      && (role.Some? ==> Apply(st, Statement(tid)) == Alone(s, tid, Work(w.op, w.stage + 1, role.value), locked, map[]))
  {
    hide Passes, Free;
    var st := Alone(s, tid, w, locked, map[]);
    if Enabled(st, Statement(tid)) {
      assert Apply(st, Statement(tid)).work == map[tid := Work(w.op, w.stage + 1, RoleAt(s.db.rows, w.op.team, u).value)];
    }
  }

  lemma DeleteMemberAlone(s: State, tid: nat, w: Work, locked: map<Key, Option<Cell>>, writes: map<Key, Option<Cell>>, u: Id)
    requires w.stage < |Program(w.op)| && Program(w.op)[w.stage] == DeleteMember(u) && MemberRow(w.op.team, u) in s.db.rows
    ensures var st, k := Alone(s, tid, w, locked, writes), MemberRow(w.op.team, u);
      && Enabled(st, Statement(tid))
      && Apply(st, Statement(tid)) == Alone(s, tid, w.(stage := w.stage + 1), locked[k := Some(s.db.rows[k])], writes[k := None])
  {
    hide Passes, Free;
    FreeAlone(s, tid, w, locked, writes);
    assert Apply(Alone(s, tid, w, locked, writes), Statement(tid)).work == map[tid := w.(stage := w.stage + 1)];
  }

  lemma SetRoleAlone(s: State, tid: nat, w: Work, locked: map<Key, Option<Cell>>, writes: map<Key, Option<Cell>>, u: Id, r: Role)
    requires w.stage < |Program(w.op)| && Program(w.op)[w.stage] == SetRole(u, r) && MemberRow(w.op.team, u) in s.db.rows
    ensures var st, k := Alone(s, tid, w, locked, writes), MemberRow(w.op.team, u);
      && Enabled(st, Statement(tid))
      && Apply(st, Statement(tid)) == Alone(s, tid, w.(stage := w.stage + 1), locked[k := Some(s.db.rows[k])], writes[k := Some(Has(r))])
  {
    hide Passes, Free;
    FreeAlone(s, tid, w, locked, writes);
    assert Apply(Alone(s, tid, w, locked, writes), Statement(tid)).work == map[tid := w.(stage := w.stage + 1)];
  }

  lemma FinishAlone(s: State, tid: nat, w: Work, locked: map<Key, Option<Cell>>, writes: map<Key, Option<Cell>>)
    requires w.stage == |Program(w.op)| && !w.op.DeleteTeam?
    ensures var st := Alone(s, tid, w, locked, writes);
      Enabled(st, Finish(tid)) && Apply(st, Finish(tid)).db.rows == Written(s.db.rows, writes) && Idle(Apply(st, Finish(tid)))
  {
  }

  /** One more statement. */
  lemma OneOn(s: State, tid: nat, n: nat)
    ensures CanRunOn(s, tid, n + 1) <==> Enabled(s, Statement(tid)) && CanRunOn(Apply(s, Statement(tid)), tid, n)
    ensures CanRunOn(s, tid, n + 1) ==> RunOn(s, tid, n + 1) == RunOn(Apply(s, Statement(tid)), tid, n)
  {
    hide Enabled, Apply;
  }

  lemma NoneOn(s: State, tid: nat)
    ensures CanRunOn(s, tid, 0) && RunOn(s, tid, 0) == s
  {
  }

  /** Leaving: open to every member but the owner; the membership goes and nothing else. */
  lemma LeaveAlone(s: State, tid: nat, t: Id, u: Id)
    requires Idle(s)
    ensures var op, role := LeaveTeam(t, u), RoleAt(s.db.rows, t, u);
      && (GetsThrough(s, tid, op) <==> role.Some? && role != Some(Owner))
      && (GetsThrough(s, tid, op) ==>
            var done := BeforeCommit(s, tid, op);
            Enabled(done, Finish(tid)) && Apply(done, Finish(tid)).db.rows == s.db.rows - {MemberRow(t, u)})
  {
    hide Enabled, Apply, CanRunOn, RunOn, Alone;
    var op, k, role := LeaveTeam(t, u), MemberRow(t, u), RoleAt(s.db.rows, t, u);
    StartAlone(s, tid, op);
    var w0, w1, w2 := Work(op, 0, Member), Work(op, 1, Member), Work(op, 2, Member);
    var s0 := Alone(s, tid, w0, map[], map[]);
    OneOn(s0, tid, 1);
    LockAlone(s, tid, w0, map[], map[], u);
    if Enabled(s0, Statement(tid)) {
      var held := map[k := Some(Has(role.value))];
      var s1 := Alone(s, tid, w1, held, map[]);
      OneOn(s1, tid, 0);
      DeleteMemberAlone(s, tid, w1, held, map[], u);
      var s2 := Alone(s, tid, w2, held[k := Some(s.db.rows[k])], map[k := None]);
      NoneOn(s2, tid);
      FinishAlone(s, tid, w2, held[k := Some(s.db.rows[k])], map[k := None]);
    }
  }

  /** Removing: the owner anyone else, an admin plain members; that membership goes and nothing else. */
  lemma RemoveAlone(s: State, tid: nat, t: Id, a: Id, x: Id)
    requires Idle(s) && Integrity(s.db.rows)
    ensures var op, actor, target := RemoveMember(t, a, x), RoleAt(s.db.rows, t, a), RoleAt(s.db.rows, t, x);
      && (GetsThrough(s, tid, op) <==> target.Some? && x != a && (actor == Some(Owner) || (actor == Some(Admin) && target == Some(Member))))
      && (GetsThrough(s, tid, op) ==>
            var done := BeforeCommit(s, tid, op);
            Enabled(done, Finish(tid)) && Apply(done, Finish(tid)).db.rows == s.db.rows - {MemberRow(t, x)})
  {
    hide Enabled, Apply, CanRunOn, RunOn, Alone, Integrity;
    var op, k, actor, target := RemoveMember(t, a, x), MemberRow(t, x), RoleAt(s.db.rows, t, a), RoleAt(s.db.rows, t, x);
    OwnersAreOne(s.db.rows, t, a, x);
    StartAlone(s, tid, op);
    var w0 := Work(op, 0, Member);
    var s0 := Alone(s, tid, w0, map[], map[]);
    OneOn(s0, tid, 2);
    ReadAlone(s, tid, w0, map[], a);
    if actor.Some? {
      var w1 := Work(op, 1, actor.value);
      var s1 := Alone(s, tid, w1, map[], map[]);
      OneOn(s1, tid, 1);
      LockAlone(s, tid, w1, map[], map[], x);
      if Enabled(s1, Statement(tid)) {
        var held, w2, w3 := map[k := Some(Has(target.value))], Work(op, 2, actor.value), Work(op, 3, actor.value);
        OneOn(Alone(s, tid, w2, held, map[]), tid, 0);
        DeleteMemberAlone(s, tid, w2, held, map[], x);
        NoneOn(Alone(s, tid, w3, held[k := Some(s.db.rows[k])], map[k := None]), tid);
        FinishAlone(s, tid, w3, held[k := Some(s.db.rows[k])], map[k := None]);
      }
    }
  }

  lemma OwnersAreOne(rows: map<Key, Cell>, t: Id, a: Id, b: Id)
    requires Integrity(rows)
    ensures RoleAt(rows, t, a) == Some(Owner) == RoleAt(rows, t, b) ==> a == b
    ensures RoleAt(rows, t, a).Some? ==> TeamRow(t) in rows
  {
    if RoleAt(rows, t, a) == Some(Owner) == RoleAt(rows, t, b) {
      assert MemberRow(t, a) in rows && SoleOwner(rows, t);
      assert Owns(rows, t, a) && Owns(rows, t, b);
    }
  }

  /** Changing a role: by the same rule, to a different role other than owner; that role changes and nothing else. */
  lemma ChangeRoleAlone(s: State, tid: nat, t: Id, a: Id, x: Id, r: Role)
    requires Idle(s) && Integrity(s.db.rows)
    ensures var op, actor, target := ChangeMemberRole(t, a, x, r), RoleAt(s.db.rows, t, a), RoleAt(s.db.rows, t, x);
      && (GetsThrough(s, tid, op) <==>
            && target.Some? && x != a && r != Owner && target != Some(r)
            && (actor == Some(Owner) || (actor == Some(Admin) && target == Some(Member))))
      && (GetsThrough(s, tid, op) ==>
            var done := BeforeCommit(s, tid, op);
            Enabled(done, Finish(tid)) && Apply(done, Finish(tid)).db.rows == s.db.rows[MemberRow(t, x) := Has(r)])
  {
    hide Enabled, Apply, CanRunOn, RunOn, Alone, Integrity;
    var op, k, actor, target := ChangeMemberRole(t, a, x, r), MemberRow(t, x), RoleAt(s.db.rows, t, a), RoleAt(s.db.rows, t, x);
    OwnersAreOne(s.db.rows, t, a, x);
    StartAlone(s, tid, op);
    var w0 := Work(op, 0, Member);
    var s0 := Alone(s, tid, w0, map[], map[]);
    OneOn(s0, tid, 2);
    ReadAlone(s, tid, w0, map[], a);
    if actor.Some? {
      var w1 := Work(op, 1, actor.value);
      var s1 := Alone(s, tid, w1, map[], map[]);
      OneOn(s1, tid, 1);
      LockAlone(s, tid, w1, map[], map[], x);
      if Enabled(s1, Statement(tid)) {
        var held, w2, w3 := map[k := Some(Has(target.value))], Work(op, 2, actor.value), Work(op, 3, actor.value);
        OneOn(Alone(s, tid, w2, held, map[]), tid, 0);
        SetRoleAlone(s, tid, w2, held, map[], x, r);
        NoneOn(Alone(s, tid, w3, held[k := Some(s.db.rows[k])], map[k := Some(Has(r))]), tid);
        FinishAlone(s, tid, w3, held[k := Some(s.db.rows[k])], map[k := Some(Has(r))]);
        assert Written(s.db.rows, map[k := Some(Has(r))]) == s.db.rows[k := Has(r)];
      }
    }
  }

  /** Transferring: from the owner to another member; the two roles change and nothing else. */
  lemma TransferAlone(s: State, tid: nat, t: Id, a: Id, h: Id)
    requires Idle(s)
    ensures var op := TransferOwnership(t, a, h);
      && (GetsThrough(s, tid, op) <==> RoleAt(s.db.rows, t, a) == Some(Owner) && h != a && RoleAt(s.db.rows, t, h).Some?)
      && (GetsThrough(s, tid, op) ==>
            var done := BeforeCommit(s, tid, op);
            Enabled(done, Finish(tid)) && Apply(done, Finish(tid)).db.rows == s.db.rows[MemberRow(t, h) := Has(Owner)][MemberRow(t, a) := Has(Admin)])
  {
    hide Enabled, Apply, CanRunOn, RunOn, Alone;
    var op, k, j := TransferOwnership(t, a, h), MemberRow(t, a), MemberRow(t, h);
    StartAlone(s, tid, op);
    var w0, w1, w2, w3, w4 := Work(op, 0, Member), Work(op, 1, Member), Work(op, 2, Member), Work(op, 3, Member), Work(op, 4, Member);
    var s0 := Alone(s, tid, w0, map[], map[]);
    OneOn(s0, tid, 3);
    LockAlone(s, tid, w0, map[], map[], a);
    if Enabled(s0, Statement(tid)) {
      var one := map[k := Some(Has(RoleAt(s.db.rows, t, a).value))];
      var s1 := Alone(s, tid, w1, one, map[]);
      OneOn(s1, tid, 2);
      LockAlone(s, tid, w1, one, map[], h);
      if Enabled(s1, Statement(tid)) {
        var two := one[j := Some(Has(RoleAt(s.db.rows, t, h).value))];
        OneOn(Alone(s, tid, w2, two, map[]), tid, 1);
        SetRoleAlone(s, tid, w2, two, map[], h, Owner);
        var three, up := two[j := Some(s.db.rows[j])], map[j := Some(Has(Owner))];
        OneOn(Alone(s, tid, w3, three, up), tid, 0);
        SetRoleAlone(s, tid, w3, three, up, a, Admin);
        var four, down := three[k := Some(s.db.rows[k])], up[k := Some(Has(Admin))];
        NoneOn(Alone(s, tid, w4, four, down), tid);
        FinishAlone(s, tid, w4, four, down);
        assert Written(s.db.rows, down) == s.db.rows[j := Has(Owner)][k := Has(Admin)];
      }
    }
  }

  lemma InsertsAlone(s: State, tid: nat, t: Id, u: Id)
    requires TeamRow(t) !in s.db.rows && MemberRow(t, u) !in s.db.rows
    ensures var op := CreateTeam(t, u);
      var s0, s1 := Alone(s, tid, Work(op, 0, Member), map[], map[]), Alone(s, tid, Work(op, 1, Member), map[TeamRow(t) := None], map[TeamRow(t) := Some(Exists)]);
      && Enabled(s0, Statement(tid)) && Apply(s0, Statement(tid)) == s1
      && Enabled(s1, Statement(tid))
      && Apply(s1, Statement(tid)) == Alone(s, tid, Work(op, 2, Member), map[TeamRow(t) := None, MemberRow(t, u) := None],
                                            map[TeamRow(t) := Some(Exists), MemberRow(t, u) := Some(Has(Owner))])
  {
    hide Passes, Free;
    var op := CreateTeam(t, u);
    FreeAlone(s, tid, Work(op, 0, Member), map[], map[]);
    FreeAlone(s, tid, Work(op, 1, Member), map[TeamRow(t) := None], map[TeamRow(t) := Some(Exists)]);
    var s0, s1 := Alone(s, tid, Work(op, 0, Member), map[], map[]), Alone(s, tid, Work(op, 1, Member), map[TeamRow(t) := None], map[TeamRow(t) := Some(Exists)]);
    assert Apply(s0, Statement(tid)).work == s1.work;
  }

  /** Creating: possible for a new team; the team and its owner's membership appear together. */
  lemma CreateAlone(s: State, tid: nat, t: Id, u: Id)
    requires Idle(s) && Integrity(s.db.rows) && TeamRow(t) !in s.db.rows
    ensures var op := CreateTeam(t, u);
      && GetsThrough(s, tid, op)
      && var done := BeforeCommit(s, tid, op);
         Enabled(done, Finish(tid)) && Apply(done, Finish(tid)).db.rows == s.db.rows[TeamRow(t) := Exists][MemberRow(t, u) := Has(Owner)]
  {
    hide Enabled, Apply, CanRunOn, RunOn, Alone;
    var op := CreateTeam(t, u);
    StartAlone(s, tid, op);
    InsertsAlone(s, tid, t, u);
    OneOn(Alone(s, tid, Work(op, 0, Member), map[], map[]), tid, 1);
    OneOn(Alone(s, tid, Work(op, 1, Member), map[TeamRow(t) := None], map[TeamRow(t) := Some(Exists)]), tid, 0);
    var locked, writes := map[TeamRow(t) := None, MemberRow(t, u) := None], map[TeamRow(t) := Some(Exists), MemberRow(t, u) := Some(Has(Owner))];
    NoneOn(Alone(s, tid, Work(op, 2, Member), locked, writes), tid);
    FinishAlone(s, tid, Work(op, 2, Member), locked, writes);
    assert Written(s.db.rows, writes) == s.db.rows[TeamRow(t) := Exists][MemberRow(t, u) := Has(Owner)];
  }

  // ----- deleting a team, with its memberships -----

  ghost predicate CanCascade(s: State, tid: nat, users: seq<Id>)
    decreases |users|
  {
    users == [] || (Enabled(s, Cascade(tid, users[0])) && CanCascade(Apply(s, Cascade(tid, users[0])), tid, users[1..]))
  }

  ghost function Cascaded(s: State, tid: nat, users: seq<Id>): State
    requires CanCascade(s, tid, users)
    decreases |users|
  {
    if users == [] then s else Cascaded(Apply(s, Cascade(tid, users[0])), tid, users[1..])
  }

  lemma CascadeOne(s: State, tid: nat, w: Work, locked: map<Key, Option<Cell>>, writes: map<Key, Option<Cell>>, u: Id)
    requires w.op.DeleteTeam? && w.stage == 2 && MemberRow(w.op.team, u) in s.db.rows
    ensures var st, k := Alone(s, tid, w, locked, writes), MemberRow(w.op.team, u);
      && Enabled(st, Cascade(tid, u))
      && Apply(st, Cascade(tid, u)) == Alone(s, tid, w, locked[k := Some(s.db.rows[k])], writes[k := None])
  {
    hide Free;
    FreeAlone(s, tid, w, locked, writes);
  }

  /** The rows of the memberships cascaded to, marked for deletion. */
  function Dropped(t: Id, users: seq<Id>): set<Key>
  {
    set u | u in users :: MemberRow(t, u)
  }

  lemma {:induction false} CascadeAll(s: State, tid: nat, w: Work, locked: map<Key, Option<Cell>>, writes: map<Key, Option<Cell>>, users: seq<Id>)
    returns (locked': map<Key, Option<Cell>>, writes': map<Key, Option<Cell>>)
    requires w.op.DeleteTeam? && w.stage == 2 && forall u :: u in users ==> MemberRow(w.op.team, u) in s.db.rows
    requires forall k :: k in writes ==> writes[k] == None
    ensures var st := Alone(s, tid, w, locked, writes); CanCascade(st, tid, users) && Cascaded(st, tid, users) == Alone(s, tid, w, locked', writes')
    ensures writes'.Keys == writes.Keys + Dropped(w.op.team, users) && forall k :: k in writes' ==> writes'[k] == None
    decreases |users|
  {
    hide Enabled, Apply, Alone;
    if users == [] {
      locked', writes' := locked, writes;
    } else {
      var k := MemberRow(w.op.team, users[0]);
      CascadeOne(s, tid, w, locked, writes, users[0]);
      locked', writes' := CascadeAll(s, tid, w, locked[k := Some(s.db.rows[k])], writes[k := None], users[1..]);
      assert users == [users[0]] + users[1..];
    }
  }

  lemma DropAlone(s: State, tid: nat, t: Id, a: Id, locked: map<Key, Option<Cell>>)
    requires TeamRow(t) in s.db.rows
    ensures var w := Work(DeleteTeam(t, a), 1, Member);
      var st := Alone(s, tid, w, locked, map[]);
      && Enabled(st, Statement(tid))
      && Apply(st, Statement(tid)) == Alone(s, tid, Work(DeleteTeam(t, a), 2, Member), locked[TeamRow(t) := Some(s.db.rows[TeamRow(t)])], map[TeamRow(t) := None])
  {
    hide Passes, Free;
    var w := Work(DeleteTeam(t, a), 1, Member);
    FreeAlone(s, tid, w, locked, map[]);
    assert Apply(Alone(s, tid, w, locked, map[]), Statement(tid)).work == map[tid := Work(DeleteTeam(t, a), 2, Member)];
  }

  lemma FinishDelete(s: State, tid: nat, w: Work, locked: map<Key, Option<Cell>>, writes: map<Key, Option<Cell>>)
    requires w.op.DeleteTeam? && w.stage == 2
    requires forall u :: MemberRow(w.op.team, u) in s.db.rows ==> MemberRow(w.op.team, u) in writes
    ensures var st := Alone(s, tid, w, locked, writes); Enabled(st, Finish(tid)) && Apply(st, Finish(tid)).db.rows == Written(s.db.rows, writes)
  {
  }

  /** Deleting: the owner's right alone; the team and all its memberships go, and nothing else. */
  lemma DeleteAlone(s: State, tid: nat, t: Id, a: Id, users: seq<Id>)
    requires Idle(s) && Integrity(s.db.rows) && forall u :: u in users <==> MemberRow(t, u) in s.db.rows
    ensures var op := DeleteTeam(t, a);
      && (GetsThrough(s, tid, op) <==> RoleAt(s.db.rows, t, a) == Some(Owner))
      && (GetsThrough(s, tid, op) ==>
            && CanCascade(BeforeCommit(s, tid, op), tid, users)
            && var done := Cascaded(BeforeCommit(s, tid, op), tid, users);
               Enabled(done, Finish(tid)) && Apply(done, Finish(tid)).db.rows == map k | k in s.db.rows && k.team != t :: s.db.rows[k])
  {
    hide Enabled, Apply, CanRunOn, RunOn, Alone, Integrity, CanCascade, Cascaded;
    var op, k := DeleteTeam(t, a), MemberRow(t, a);
    OwnersAreOne(s.db.rows, t, a, a);
    StartAlone(s, tid, op);
    var w0, w1, w2 := Work(op, 0, Member), Work(op, 1, Member), Work(op, 2, Member);
    var s0 := Alone(s, tid, w0, map[], map[]);
    OneOn(s0, tid, 1);
    LockAlone(s, tid, w0, map[], map[], a);
    if Enabled(s0, Statement(tid)) {
      var one := map[k := Some(Has(RoleAt(s.db.rows, t, a).value))];
      OneOn(Alone(s, tid, w1, one, map[]), tid, 0);
      DropAlone(s, tid, t, a, one);
      var two, drop := one[TeamRow(t) := Some(s.db.rows[TeamRow(t)])], map[TeamRow(t) := None];
      NoneOn(Alone(s, tid, w2, two, drop), tid);
      var locked, writes := CascadeAll(s, tid, w2, two, drop, users);
      FinishDelete(s, tid, w2, locked, writes);
      RowsWithout(s.db.rows, t, users, writes);
    }
  }

  lemma RowsWithout(rows: map<Key, Cell>, t: Id, users: seq<Id>, writes: map<Key, Option<Cell>>)
    requires forall u :: u in users <==> MemberRow(t, u) in rows
    requires writes.Keys == {TeamRow(t)} + Dropped(t, users) && forall k :: k in writes ==> writes[k] == None
    ensures Written(rows, writes) == map k | k in rows && k.team != t :: rows[k]
  {
    forall k | k in rows
      ensures k in writes <==> k.team == t
    {
      match k
      case TeamRow(_) =>
      case MemberRow(_, u) => assert k.team == t ==> u in users;
    }
  }

  // ----- invitations and aborts -----

  /** Inviting: by a manager, to a role other than owner, someone else; with nobody in the way the
      invitation then adds that membership to an existing team, and nothing else. */
  lemma InviteAlone(s: State, t: Id, a: Id, u: Id, r: Role)
    requires Idle(s)
    ensures var actor := RoleAt(s.db.rows, t, a);
      && (Enabled(s, CheckInvite(t, a, u, r)) <==> (actor == Some(Owner) || actor == Some(Admin)) && r != Owner && u != a)
      && (Enabled(s, CheckInvite(t, a, u, r)) ==>
            var asked := Apply(s, CheckInvite(t, a, u, r));
            && asked.db == s.db
            && (Enabled(asked, Invite(Invitation(t, u, r))) <==> TeamRow(t) in s.db.rows && MemberRow(t, u) !in s.db.rows)
            && (Enabled(asked, Invite(Invitation(t, u, r))) ==>
                  Apply(asked, Invite(Invitation(t, u, r))).db.rows == s.db.rows[MemberRow(t, u) := Has(r)]))
  {
  }

  /** Any transaction may abort at any point, and leaves no trace in the rows. */
  lemma AbortLeavesNothing(s: State, tid: nat)
    requires tid in s.work
    ensures Enabled(s, Abort(tid)) && var s' := Apply(s, Abort(tid)); s'.db.rows == s.db.rows && tid !in s'.work && tid !in s'.db.sessions
  {
  }
}
