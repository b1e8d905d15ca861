/** `AuditLogService.log_user_action`: the body of the coroutine, which inserts one audit row.
    It runs only where the coroutine is awaited (the login and registration paths of the
    authentication service, which are not part of this model); every other caller only issues the
    call (Store.Database.Issue). */
module AuditLogService {
  import opened Wrappers
  import opened Records
  import opened Store

  /** Appends exactly one entry whose fields are the arguments; existing entries are kept as
      they were and no other table changes. Only `userId` and `action` have no default. */
  method LogUserAction(db: Database, now: int, userId: Option<int>, action: string,
                       entityType: Option<string> := None, entityId: Option<int> := None,
                       details: Option<string> := None, ipAddress: Option<string> := None)
    requires db.Valid()
    modifies db`auditLogs, db`nextAuditId
    ensures db.Valid()
    ensures db.auditLogs == old(db.auditLogs) + [AuditEntry(old(db.nextAuditId), userId, action, entityType, entityId, details, ipAddress, now)]
    ensures |db.auditLogs| == |old(db.auditLogs)| + 1 && old(db.auditLogs) <= db.auditLogs
  {
    var entry := AuditEntry(db.nextAuditId, userId, action, entityType, entityId, details, ipAddress, now);
    db.auditLogs := db.auditLogs + [entry];
    db.nextAuditId := db.nextAuditId + 1;
  }
}
