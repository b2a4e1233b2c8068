/** The audit log: one AFTER trigger per (table, statement kind) on the seven
    business tables, each appending one (op, table) row to logs
    (db/repository.py:146-160). The change_date column, filled from the
    clock, is not modelled. */
module Audit {
  import opened Schema

  /** Every log trigger that the installation creates. */
  const AllLogTriggers: set<LogTrigger> :=
    set t, op | t in TrackedTables && op in Ops :: LogTrigger(t, op)

  /** The database once every log trigger exists, and no other. */
  predicate LogReady(db: Db) {
    db.logTriggers == AllLogTriggers
  }

  /** A row-level write of kind `op` on `table` has just happened: the
      AFTER trigger <table>_<op>_log, if it has been created, appends its row. */
  function Fire(db: Db, op: Op, table: Table): Db {
    if LogTrigger(table, op) in db.logTriggers then db.(log := db.log + [LogEntry(op, table)]) else db
  }

  /** CREATE TRIGGER IF NOT EXISTS for every tracked table and kind: a trigger
      that already exists is kept, so the set only grows, and it ends up holding
      a trigger for each kind on every table except logs. */
  function InstallLogTriggers(db: Db): (r: Db)
    ensures forall t, op :: LogTrigger(t, op) in r.logTriggers <==> (LogTrigger(t, op) in db.logTriggers || t != Logs)
    ensures r.(logTriggers := db.logTriggers) == db
    ensures db.logTriggers <= AllLogTriggers ==> LogReady(r)
  {
    AllLogTriggersExact();
    db.(logTriggers := db.logTriggers + AllLogTriggers)
  }

  /** The installation covers every kind on every table but logs, and nothing on logs. */
  lemma AllLogTriggersExact()
    ensures forall t, op :: LogTrigger(t, op) in AllLogTriggers <==> t != Logs
  {
    forall t, op ensures LogTrigger(t, op) in AllLogTriggers <==> t != Logs {
      if t != Logs {
        assert op in Ops by {
          match op
          case Insert => assert Ops[0] == op;
          case Update => assert Ops[1] == op;
          case Delete => assert Ops[2] == op;
        }
        assert t in TrackedTables;
      }
    }
  }

  /** Installing the log triggers a second time changes nothing. */
  lemma InstallIsIdempotent(db: Db)
    ensures InstallLogTriggers(InstallLogTriggers(db)) == InstallLogTriggers(db)
  {
  }

  /** Once the log triggers exist, a write on any of the seven tracked tables
      appends exactly one (op, table) row and changes nothing else; a write on
      logs itself appends nothing. */
  lemma EachWriteLoggedOnce(db: Db, op: Op, table: Table)
    requires LogReady(db)
    ensures table != Logs ==> Fire(db, op, table) == db.(log := db.log + [LogEntry(op, table)])
    ensures table == Logs ==> Fire(db, op, table) == db
  {
  }

  /** Before the log triggers are installed no write is logged. */
  lemma NothingLoggedBeforeInstall(db: Db, op: Op, table: Table)
    requires db.logTriggers == {}
    ensures Fire(db, op, table) == db
  {
  }
}
