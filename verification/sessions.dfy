/** The database session a request works in. */
module Sessions {
  import opened Store

  /** What is stored, and what this session sees: the stored tables with its own uncommitted writes. */
  class Session {
    var committed: Db
    var working: Db

    constructor (db: Db)
      ensures committed == db && working == db
    {
      committed, working := db, db;
    }

    /** No write is pending, as at the start and at the end of a request. */
    predicate Idle()
      reads this
    {
      working == committed
    }

    method Commit()
      modifies this
      ensures committed == old(working) && Idle()
    {
      committed := working;
    }

    /** `rollback`, and what closing the session does to uncommitted writes. */
    method Rollback()
      modifies this
      ensures committed == old(committed) && Idle()
    {
      working := committed;
    }

    /** `begin_nested`: the tables to return to if the block raises. */
    method Savepoint() returns (saved: Db)
      ensures saved == working
    {
      saved := working;
    }

    method RollbackTo(saved: Db)
      modifies this
      ensures working == saved && committed == old(committed)
    {
      working := saved;
    }
  }
}
