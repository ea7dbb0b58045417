/** Types shared by the model of the job engine: the choice columns of the
    `JobRun` table and the usual optional value. */
module BotTypes {

  datatype Option<+T> = None | Some(value: T)

  datatype JobStatus = Queued | Running | Waiting | Blocked | Done | Failed | Quarantined

  datatype RiskLevel = ReadOnly | ControlledWrite | HighImpactWrite {
    /** The two levels that take the case lock and stop at the degraded gate. */
    predicate IsWrite() {
      this.ControlledWrite? || this.HighImpactWrite?
    }
  }
}
