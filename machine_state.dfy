/** The generic machine states of the host framework (docker machine's
    `state.State`), onto which every driver maps its provider's states */
module MachineState {
  datatype State =
    | None
    | Running
    | Paused
    | Saved
    | Stopped
    | Stopping
    | Starting
    | Error
    | Timeout
}
