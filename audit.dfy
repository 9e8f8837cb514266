/** The audit trail entry and its action choices (backend/audit/models.py). */
module Audit {
  import opened Wrappers
  import opened Models

  datatype AuditAction = Create | Update | Delete | View | StatusChange

  /** One row of the audit log; `user` is None for anonymous actors, `timestamp` is set on save. */
  datatype AuditEntry = AuditEntry(
    user: Option<UserName>,
    action: AuditAction,
    targetModel: string,
    targetId: string,
    details: string,
    timestamp: Timestamp)
}
