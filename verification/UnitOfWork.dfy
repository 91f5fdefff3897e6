/** The transaction boundary of the application services.  `durable` is what the database
    holds; `working` is the session's uncommitted view of it. */
module UnitsOfWork {
  import opened Basics

  class UnitOfWork<D(!new)> {
    var durable: D
    var working: D
    var committed: bool
    var rolledBack: bool

    constructor (initial: D)
      ensures durable == working == initial && !committed && !rolledBack
    {
      durable, working, committed, rolledBack := initial, initial, false, false;
    }

    method Enter()
      modifies this`committed, this`rolledBack
      ensures !committed && !rolledBack
    {
      committed, rolledBack := false, false;
    }

    /** Commits, or rolls back and raises when the database refuses. */
    method Commit(accepted: bool) returns (r: Outcome)
      modifies this
      ensures accepted ==>
                r == Pass && committed && rolledBack == old(rolledBack) &&
                durable == working == old(working)
      ensures !accepted ==>
                r == Fail(Unavailable) && rolledBack && committed == old(committed) &&
                durable == old(durable) &&
                working == (if old(rolledBack) then old(working) else durable)
    {
      if !accepted {
        Rollback();
        return Fail(Unavailable);
      }
      durable := working;
      committed := true;
      return Pass;
    }

    /** Discards uncommitted work; idempotent within one scope. */
    method Rollback()
      modifies this`working, this`rolledBack
      ensures rolledBack
      ensures working == if old(rolledBack) then old(working) else durable
    {
      if rolledBack {
        return;
      }
      working := durable;
      rolledBack := true;
    }

    /** Leaves the scope, with or without an exception in flight: anything not committed
        is gone and the database is untouched. */
    method Exit(raised: bool)
      modifies this`working, this`rolledBack
      ensures working == if old(committed) || old(rolledBack) then old(working) else durable
      ensures rolledBack == (old(rolledBack) || !old(committed))
    {
      if raised {
        if !committed {
          Rollback();
        }
        return;
      }
      if !committed {
        Rollback();
      }
    }
  }
}
