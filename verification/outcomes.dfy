/** The result an external collaborator reports for one call: the file
    system, the status store, the queue writer. Only success or failure is
    visible to the gateway, together with the error's text. */
module Outcomes {

  datatype Outcome = Ok | Err(msg: string)
}
