/** Assignment2: how the network monitor reacts to one received message. */
module MonitorProtocol {
  datatype Reaction = Reply(text: string) | Ignore | Hangup | Unknown

  const READY := "Ready"
  const MONITOR := "Monitor"
  const MONITORING := "Monitoring"
  const LINK_DOWN := "Link Down"
  const SET_LINK_UP := "Set Link Up"
  const DONE := "Done"
  const SHUT_DOWN := "Shut Down"

  function ReactTo(message: string): Reaction {
    if message == READY then Reply(MONITOR)
    else if message == MONITORING then Ignore
    else if message == LINK_DOWN then Reply(SET_LINK_UP)
    else if message == DONE then Hangup
    else Unknown
  }
}
