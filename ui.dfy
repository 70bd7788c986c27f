/** Values shared by the button and the controller: actions, the outcome of
    processing one, and the notifications shown to the user. */
module Ui {

  /** A user-triggerable intent with a display caption. Actions are compared by
      reference: two actions with the same caption are different actions. */
  class Action {
    const caption: string

    constructor (caption: string)
      ensures this.caption == caption
    {
      this.caption := caption;
    }
  }

  datatype Option<T> = None | Some(value: T)

  /** What processing one action yields: success, or the message of the fault
      that the handler raised. */
  datatype Outcome = Ok | Fail(message: string)

  datatype Severity = Warning | Error

  /** One notification shown by the host framework: a title, a message and a
      severity. Showing a notification is modelled as appending one of these to
      an output log. */
  datatype Notification = Notification(title: string, message: string, severity: Severity)
}
