/** What both session controllers share about MCE's name on the bus. */
module MceOwner {

  datatype Owner = Unknown | Stopped | Running

  function Of(running: bool): Owner { if running then Running else Stopped }

  /** What the daemon has yet to read of the match rules and, after them, the owner query. */
  datatype Outbox = Unsent | RuleThenQuery | QueryOnly | Handled
}
