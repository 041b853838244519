/** The enumerations that the power service shares between its components. */
module PowerTypes {

  datatype Option<+T> = None | Some(value: T)

  /** Power states, in the order of their numeric values. */
  datatype PowerState =
    | Awake | Freeze | Inactive | StandBy | Doze | Sleep | Hibernate | Shutdown | Dim | Unknown

  datatype DisplayState =
    | DisplayOff | DisplayDim | DisplayOn | DisplaySuspend | DisplayDoze | DisplayDozeSuspend | DisplayUnknown

  /**
   * Reasons for a state change. `OtherReason` stands for every reason that no modelled
   * branch tests, identified by its numeric value.
   */
  datatype Reason =
    | Init | Timeout | TimeoutNoScreenLock | System | Refresh | Coordination | Proximity
    | DoubleClick | Pickup | PlugChange | HibernateReason | RollbackReason | SwitchSensorhub
    | PreBright | AuthSuccess | AuthFailScreenOn | AuthFailScreenOff
    | OtherReason(code: nat)

  predicate IsTimeoutReason(reason: Reason) {
    reason.Timeout? || reason.TimeoutNoScreenLock?
  }

  predicate IsPreBrightAuthReason(reason: Reason) {
    reason.AuthSuccess? || reason.AuthFailScreenOn? || reason.AuthFailScreenOff?
  }

  /** Reasons that belong to the two-stage authentication protocol. */
  predicate PreBrightReason(reason: Reason) { reason.PreBright? || IsPreBrightAuthReason(reason) }

  datatype TransitResult =
    | Success | AlreadyInState | Locking | DisplayOnErr | DisplayOffErr | ForbidTransit | PreBrightErr | OtherErr

  /** Answers of the service's calls. */
  datatype PowerErrors = ErrOk | ErrParamInvalid | ErrPowerModeTransitFailed | ErrEnterprisePoliciesDenied
}
