/** What the control inbox and the executor of its requests have in common. */
module ControlFacts {

  /** Ids are fixed-width hexadecimal, so that their order is the order of numbers. */
  type RequestId = nat

  type Time = int

  datatype Command = HaltCommand | DisarmCommand | CancelCommand | StopCommand
}
