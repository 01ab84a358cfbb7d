/** Transactions under READ COMMITTED with exclusive row locks held to the end. */
module RowLocks {
  import opened Domain

  /** What a transaction has locked, with the value it found, and what it will write; `None` is no row. */
  datatype Session<K, V> = Session(locked: map<K, Option<V>>, writes: map<K, Option<V>>)

  /** The committed rows and the open transactions. */
  datatype Database<K, V> = Database(rows: map<K, V>, sessions: map<nat, Session<K, V>>)

  function Row<K, V>(db: Database<K, V>, k: K): Option<V>
  {
    if k in db.rows then Some(db.rows[k]) else None
  }

  /** No other open transaction holds the lock on `k`. */
  ghost predicate Free<K, V>(db: Database<K, V>, tid: nat, k: K)
  {
    forall other :: Holds(db, other, k) ==> other == tid
  }

  /** What a statement of the transaction sees: its own write, else the committed row. */
  function Visible<K, V>(db: Database<K, V>, tid: nat, k: K): Option<V>
    requires tid in db.sessions
  {
    if k in db.sessions[tid].writes then db.sessions[tid].writes[k] else Row(db, k)
  }

  function Begin<K, V>(db: Database<K, V>, tid: nat): Database<K, V>
  {
    db.(sessions := db.sessions[tid := Session(map[], map[])])
  }

  /** SELECT ... FOR UPDATE: an existing row is locked; a missing one leaves nothing to lock. */
  function LockRow<K, V>(db: Database<K, V>, tid: nat, k: K): Database<K, V>
    requires tid in db.sessions
  {
    var s := db.sessions[tid];
    if k in db.rows then db.(sessions := db.sessions[tid := s.(locked := s.locked[k := Row(db, k)])]) else db
  }

  /** INSERT locks the key it is about to create. */
  function LockNew<K, V>(db: Database<K, V>, tid: nat, k: K): Database<K, V>
    requires tid in db.sessions
  {
    var s := db.sessions[tid];
    db.(sessions := db.sessions[tid := s.(locked := s.locked[k := Row(db, k)])])
  }

  function Write<K, V>(db: Database<K, V>, tid: nat, k: K, v: Option<V>): Database<K, V>
    requires tid in db.sessions
  {
    var s := db.sessions[tid];
    db.(sessions := db.sessions[tid := s.(writes := s.writes[k := v])])
  }

  /** The rows after the buffered writes take effect. */
  function Written<K, V>(rows: map<K, V>, writes: map<K, Option<V>>): map<K, V>
  {
    map k | k in rows.Keys + writes.Keys && (k in writes ==> writes[k].Some?) ::
      if k in writes then writes[k].value else rows[k]
  }

  function Commit<K, V>(db: Database<K, V>, tid: nat): Database<K, V>
    requires tid in db.sessions
  {
    Database(Written(db.rows, db.sessions[tid].writes), db.sessions - {tid})
  }

  function Rollback<K, V>(db: Database<K, V>, tid: nat): Database<K, V>
  {
    db.(sessions := db.sessions - {tid})
  }

  predicate Holds<K, V>(db: Database<K, V>, tid: nat, k: K)
  {
    tid in db.sessions && k in db.sessions[tid].locked
  }

  /** Writes are locked, and a locked value is still the committed one. */
  ghost predicate SessionOk<K(!new), V>(rows: map<K, V>, s: Session<K, V>)
  {
    && (forall k :: k in s.locked ==> s.locked[k] == if k in rows then Some(rows[k]) else None)
    && s.writes.Keys <= s.locked.Keys
  }

  ghost predicate Consistent<K(!new), V>(db: Database<K, V>)
  {
    && (forall a :: a in db.sessions ==> SessionOk(db.rows, db.sessions[a]))
    && (forall a, b, k :: Holds(db, a, k) && Holds(db, b, k) ==> a == b)
  }

  /** `db'` differs from `db` in the session of one transaction, which holds at most one more lock. */
  lemma SessionStep<K(!new), V>(db: Database<K, V>, db': Database<K, V>, tid: nat, k: K)
    requires Consistent(db) && Free(db, tid, k) && tid in db'.sessions
    requires db'.rows == db.rows && db'.sessions == db.sessions[tid := db'.sessions[tid]] && SessionOk(db.rows, db'.sessions[tid])
    requires forall j :: Holds(db', tid, j) ==> j == k || Holds(db, tid, j)
    ensures Consistent(db')
  {
    forall a, b, j | Holds(db', a, j) && Holds(db', b, j)
      ensures a == b
    {
      assert a != tid ==> Holds(db, a, j);
      assert b != tid ==> Holds(db, b, j);
    }
  }

  lemma BeginKeeps<K(!new), V>(db: Database<K, V>, tid: nat)
    requires Consistent(db) && tid !in db.sessions
    ensures Consistent(Begin(db, tid))
  {
    var db' := Begin(db, tid);
    assert forall a, j :: Holds(db', a, j) ==> Holds(db, a, j);
  }

  lemma LockKeeps<K(!new), V>(db: Database<K, V>, tid: nat, k: K)
    requires Consistent(db) && tid in db.sessions && Free(db, tid, k)
    ensures Consistent(LockRow(db, tid, k)) && Consistent(LockNew(db, tid, k))
  {
    assert SessionOk(db.rows, db.sessions[tid]);
    SessionStep(db, LockNew(db, tid, k), tid, k);
  }

  lemma WriteKeeps<K(!new), V>(db: Database<K, V>, tid: nat, k: K, v: Option<V>)
    requires Consistent(db) && Holds(db, tid, k)
    ensures Consistent(Write(db, tid, k, v))
  {
    assert SessionOk(db.rows, db.sessions[tid]);
    var db' := Write(db, tid, k, v);
    assert forall a, j :: Holds(db', a, j) ==> Holds(db, a, j);
  }

  lemma RollbackKeeps<K(!new), V>(db: Database<K, V>, tid: nat)
    requires Consistent(db)
    ensures Consistent(Rollback(db, tid))
  {
    var db' := Rollback(db, tid);
    assert forall a, j :: Holds(db', a, j) ==> Holds(db, a, j);
  }

  /** A commit changes only rows it locked, so what other transactions locked stays as they saw it. */
  lemma CommitKeeps<K(!new), V>(db: Database<K, V>, tid: nat)
    requires Consistent(db) && tid in db.sessions
    ensures Consistent(Commit(db, tid))
  {
    var db' := Commit(db, tid);
    assert forall a, j :: Holds(db', a, j) ==> Holds(db, a, j);
    forall a | a in db'.sessions
      ensures SessionOk(db'.rows, db'.sessions[a])
    {
      assert SessionOk(db.rows, db.sessions[a]) && SessionOk(db.rows, db.sessions[tid]);
      forall k | k in db.sessions[a].locked
        ensures k !in db.sessions[tid].writes
      {
        assert Holds(db, a, k) && !Holds(db, tid, k);
      }
    }
  }

  /** A single autocommitted INSERT. */
  lemma InsertKeeps<K(!new), V>(db: Database<K, V>, k: K, v: V)
    requires Consistent(db) && forall a :: !Holds(db, a, k)
    ensures Consistent(db.(rows := db.rows[k := v]))
  {
    var db' := db.(rows := db.rows[k := v]);
    assert forall a, j :: Holds(db', a, j) ==> Holds(db, a, j);
    forall a | a in db'.sessions
      ensures SessionOk(db'.rows, db'.sessions[a])
    {
      assert SessionOk(db.rows, db.sessions[a]) && !Holds(db, a, k);
    }
  }
}
