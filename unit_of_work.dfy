/** The unit of work over a database session: entering opens a fresh session
    and binds a repository to it, commit makes the session's pending work
    durable, and leaving the scope always rolls back and closes, so work that
    was not committed never outlives the scope. The database is seen only
    through its rows: what is durable, and what one session has pending. */
module UnitOfWork {
  import opened Wrappers

  /** A row of the batches table, keyed by the batch reference. */
  datatype BatchRow = BatchRow(sku: string, qty: int, eta: Option<int>)

  type Rows = map<string, BatchRow>

  /** The database behind a session factory: the rows every new session
      starts from. */
  class Database {
    var durable: Rows

    /** Calling the session factory: a new session that sees exactly the
        durable rows. */
    method NewSession() returns (s: Session)
      ensures fresh(s) && s.db == this && s.open
      ensures s.pending == durable
    {
      s := new Session(this);
    }
  }

  /** A session: the rows as this session sees them, durable rows plus the
      work it has not yet committed. */
  class Session {
    const db: Database
    var pending: Rows
    var open: bool

    constructor (db: Database)
      ensures this.db == db && pending == db.durable && open
    {
      this.db := db;
      pending := db.durable;
      open := true;
    }

    /** An `INSERT` into the batches table, seen only by this session until
        it commits. */
    method Insert(ref: string, row: BatchRow)
      modifies this`pending
      ensures pending == old(pending)[ref := row]
    {
      pending := pending[ref := row];
    }

    method Commit()
      modifies db`durable
      ensures db.durable == pending
    {
      db.durable := pending;
    }

    method Rollback()
      modifies this`pending
      ensures pending == db.durable
    {
      pending := db.durable;
    }

    method Close()
      modifies this`open
      ensures !open
    {
      open := false;
    }
  }

  /** The repository bound to one session: adding and getting batches go
      through that session. */
  class SessionRepository {
    const session: Session

    constructor (session: Session)
      ensures this.session == session
    {
      this.session := session;
    }

    method Add(ref: string, row: BatchRow)
      modifies session`pending
      ensures session.pending == old(session.pending)[ref := row]
    {
      session.Insert(ref, row);
    }

    /** `query(Batch).filter_by(ref=reference).one()`: the row with that
        reference, or `None` where the query raises for want of one. */
    function Get(ref: string): (r: Option<BatchRow>)
      reads session
      ensures r.Some? <==> ref in session.pending
      ensures r.Some? ==> r.value == session.pending[ref]
    {
      if ref in session.pending then Some(session.pending[ref]) else None
    }
  }

  class SqlAlchemyUnitOfWork {
    const sessionFactory: Database
    var session: Session?
    var batches: SessionRepository?

    constructor (sessionFactory: Database)
      ensures this.sessionFactory == sessionFactory
      ensures session == null && batches == null
    {
      this.sessionFactory := sessionFactory;
      session := null;
      batches := null;
    }

    /** Opens a fresh session from the factory, binds a fresh repository to
        that same session, and returns the unit of work itself. */
    method Enter() returns (u: SqlAlchemyUnitOfWork)
      modifies this`session, this`batches
      ensures u == this
      ensures session != null && fresh(session) && session.open
      ensures session.db == sessionFactory && session.pending == sessionFactory.durable
      ensures batches != null && fresh(batches) && batches.session == session
    {
      var s := sessionFactory.NewSession();
      session := s;
      batches := new SessionRepository(s);
      u := this;
    }

    /** Leaving the scope, however it ends: roll back, then close. The
        durable rows are untouched. Nothing true is returned, so an
        exception raised in the scope is not suppressed. */
    method Exit() returns (suppress: bool)
      requires session != null
      modifies session`pending, session`open
      ensures session.pending == session.db.durable && !session.open
      ensures !suppress
    {
      Rollback();
      session.Close();
      suppress := false;
    }

    method Commit()
      requires session != null
      modifies session.db`durable
      ensures session.db.durable == session.pending
    {
      session.Commit();
    }

    method Rollback()
      requires session != null
      modifies session`pending
      ensures session.pending == session.db.durable
    {
      session.Rollback();
    }
  }

  /** A batch inserted inside the scope without a commit is gone once the
      scope ends: the scope's own session is closed holding only the
      durable rows, and a fresh session sees the rows that were durable
      before. */
  method RollsBackUncommittedWork(db: Database, ref: string, row: BatchRow)
    returns (scopeSession: Session, rows: Rows)
    ensures scopeSession.db == db && scopeSession.pending == db.durable && !scopeSession.open
    ensures rows == db.durable
  {
    var uow := new SqlAlchemyUnitOfWork(db);
    var scope := uow.Enter();
    uow.session.Insert(ref, row);
    var suppressed := uow.Exit();
    scopeSession := uow.session;
    var newSession := db.NewSession();
    rows := newSession.pending;
  }

  /** The scope raises after inserting: the insert is rolled back on the
      way out, leaving the scope's session closed with only the durable
      rows, and the exception propagates because `Exit` does not suppress
      it. */
  method RollsBackOnError(db: Database, ref: string, row: BatchRow)
    returns (raised: Outcome<string>, scopeSession: Session, rows: Rows)
    ensures raised == Fail("MyException")
    ensures scopeSession.db == db && scopeSession.pending == db.durable && !scopeSession.open
    ensures rows == db.durable
  {
    var uow := new SqlAlchemyUnitOfWork(db);
    var scope := uow.Enter();
    uow.session.Insert(ref, row);
    var suppressed := uow.Exit();
    raised := if suppressed then Pass else Fail("MyException");
    scopeSession := uow.session;
    var newSession := db.NewSession();
    rows := newSession.pending;
  }

  /** A batch made durable by one session is found through the unit of
      work's repository; another batch added through that repository and
      committed inside the scope survives the rollback on exit, so a fresh
      session afterwards sees both. */
  method CommittedWorkSurvives(db: Database, ref: string, row: BatchRow, otherRef: string, otherRow: BatchRow)
    returns (found: Option<BatchRow>, rows: Rows)
    modifies db
    ensures found == Some(row)
    ensures rows == old(db.durable)[ref := row][otherRef := otherRow]
  {
    var setup := db.NewSession();
    setup.Insert(ref, row);
    setup.Commit();

    var uow := new SqlAlchemyUnitOfWork(db);
    var scope := uow.Enter();
    found := uow.batches.Get(ref);
    uow.batches.Add(otherRef, otherRow);
    uow.Commit();
    var suppressed := uow.Exit();

    var newSession := db.NewSession();
    rows := newSession.pending;
  }
}
