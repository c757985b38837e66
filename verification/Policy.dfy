/** The vocabulary of policy: operations, enforcement levels and the daemon-wide mode. */
module Policy {
  datatype Operation = Read | Write | Sign

  datatype Enforcement = Allow | Deny | Prompt | TouchId

  datatype Mode = Enforced | AuditOnly

  /** What the daemon-wide mode makes of a configured level: audit-only waives prompts, never denials. */
  function Effective(mode: Mode, configured: Enforcement): Enforcement {
    if mode == AuditOnly && (configured == Prompt || configured == TouchId) then Allow else configured
  }
}
