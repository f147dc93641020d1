/** The JSON answers the intake handlers send back. */
module Replies {

  /**
   * An error answer carries the HTTP status, the human-readable message and
   * the machine-readable code. An accepted request answers HTTP 200 with
   * status "queued", the new job's ID and a message.
   */
  datatype Reply =
    | Rejected(httpStatus: nat, message: string, code: string)
    | Accepted(jobId: string, message: string)
}
